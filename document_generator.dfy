/**
 * The document generator service: copies a Google Docs template, fills its `{{ key }}`
 * placeholders, exports it as PDF, mints the SMS code and records the document; on signing it
 * replaces `{{ signature }}` by the signer's image, fills the `{{ mention }}` placeholder,
 * re-exports and stamps the PDF with a P12 certificate.
 *
 * Provider answers (the template's title, the copy's id, how the export stream ends, what the
 * image library reports), the clock and the random draw are parameters.
 */
module DocumentGenerator {
  import opened Wrappers
  import opened Effects
  import opened Store

  /** One property of the `information` object, in `Object.keys` order. */
  datatype Field = Field(key: string, value: string)

  /** The `information` object: a JavaScript object, so no key appears twice. */
  type Information = info: seq<Field> | KeysDistinct(info) witness []

  /** The body of `POST /generate-document`. */
  datatype Params = Params(documentId: string, information: Information)

  /** How the `drive.files.export` stream terminates. */
  datatype StreamEvent = End | Error

  /** What `gdoctableapp.ReplaceTextsToImages` hands its callback. */
  datatype LibraryReply = Failed(err: string) | Done(done: string)

  /** A promise that resolves with a value or rejects. */
  datatype Completion<T> = Resolved(value: T) | Rejected

  const SignatureMarker := "{{ signature }}"
  const ImageSize: nat := 150
  const PdfMime := "application/pdf"
  const StampReason := "Signature process end."
  const SignatureLength: nat := 1612
  const PngDataUriPrefix := "data:image/png;base64,"
  const DocumentsDir := "./documents/"
  /** `Math.random() * 900000` is floored into [0, SmsCodeSpan). */
  const SmsCodeSpan := 900000

  // ---------------------------------------------------------------------------------------------
  // The `information` object

  predicate HasKey(info: seq<Field>, key: string) {
    exists i :: 0 <= i < |info| && info[i].key == key
  }

  predicate KeysDistinct(info: seq<Field>) {
    forall i, j :: 0 <= i < j < |info| ==> info[i].key != info[j].key
  }

  /** `information[key]`: the value of the field with that key, or `undefined`. Stated over any
      list of fields, where it finds the first; on an `Information` that is the only one. */
  function Lookup(info: seq<Field>, key: string): (v: Option<string>)
    ensures v.None? <==> !HasKey(info, key)
    ensures v.Some? ==> exists i :: 0 <= i < |info| && info[i] == Field(key, v.value)
                                    && forall j :: 0 <= j < i ==> info[j].key != key
  {
    if info == [] then None
    else if info[0].key == key then Some(info[0].value)
    else
      var v := Lookup(info[1..], key);
      assert HasKey(info, key) ==> HasKey(info[1..], key) by {
        if HasKey(info, key) {
          var i :| 0 <= i < |info| && info[i].key == key;
          assert info[1..][i - 1].key == key;
        }
      }
      assert v.Some? ==> exists i :: 0 <= i < |info| && info[i] == Field(key, v.value)
                                     && forall j :: 0 <= j < i ==> info[j].key != key by {
        if v.Some? {
          var i :| 0 <= i < |info[1..]| && info[1..][i] == Field(key, v.value)
                   && forall j :: 0 <= j < i ==> info[1..][j].key != key;
          assert info[i + 1] == Field(key, v.value);
          assert forall j :: 1 <= j < i + 1 ==> info[j].key == info[1..][j - 1].key;
        }
      }
      v
  }

  /** A template literal's rendering of a possibly missing string property. */
  function Show(v: Option<string>): string {
    match v
    case Some(s) => s
    case None => "undefined"
  }

  // ---------------------------------------------------------------------------------------------
  // Names, patterns and paths

  /** The name given to the copy: `${title}_${firstname}_${lastname}`. */
  function CopyName(title: string, info: Information): string {
    title + "_" + Show(Lookup(info, "firstname")) + "_" + Show(Lookup(info, "lastname"))
  }

  /** The parts of a name between underscores; the inverse of joining with `_`. */
  function SplitUnderscores(s: string): (parts: seq<string>)
    ensures |parts| >= 1
  {
    if s == [] then [""]
    else
      var rest := SplitUnderscores(s[1..]);
      if s[0] == '_' then [""] + rest else [[s[0]] + rest[0]] + rest[1..]
  }

  lemma {:induction false} SplitNoUnderscore(a: string)
    requires '_' !in a
    ensures SplitUnderscores(a) == [a]
  {
    if a != [] {
      SplitNoUnderscore(a[1..]);
      assert [a[0]] + a[1..] == a;
    }
  }

  lemma {:induction false} SplitJoin(a: string, b: string)
    requires '_' !in a
    ensures SplitUnderscores(a + "_" + b) == [a] + SplitUnderscores(b)
  {
    if a == [] {
      assert (a + "_" + b)[1..] == b;
    } else {
      assert (a + "_" + b)[1..] == a[1..] + "_" + b;
      SplitJoin(a[1..], b);
      assert [a[0]] + a[1..] == a;
    }
  }

  /** When none of its parts holds an underscore, the copy's name gives back the template title,
      the first name and the last name. */
  lemma CopyNameParts(title: string, info: Information)
    requires '_' !in title
    requires '_' !in Show(Lookup(info, "firstname")) && '_' !in Show(Lookup(info, "lastname"))
    ensures SplitUnderscores(CopyName(title, info))
            == [title, Show(Lookup(info, "firstname")), Show(Lookup(info, "lastname"))]
  {
    var first, last := Show(Lookup(info, "firstname")), Show(Lookup(info, "lastname"));
    assert CopyName(title, info) == title + "_" + (first + "_" + last);
    SplitJoin(title, first + "_" + last);
    SplitJoin(first, last);
    SplitNoUnderscore(last);
  }

  /** The literal text `{{ key }}` that `fillInformation` asks Google Docs to replace. */
  function Placeholder(key: string): string {
    "{{ " + key + " }}"
  }

  /** The key a placeholder text stands for, if it has the `{{ key }}` shape. */
  function PlaceholderKey(text: string): Option<string> {
    if |text| >= 6 && text[..3] == "{{ " && text[|text| - 3..] == " }}"
    then Some(text[3..|text| - 3]) else None
  }

  lemma PlaceholderRoundTrip(key: string, text: string)
    ensures PlaceholderKey(Placeholder(key)) == Some(key)
    ensures PlaceholderKey(text) == Some(key) ==> Placeholder(key) == text
  {
    var p := Placeholder(key);
    assert p[..3] == "{{ " && p[|p| - 3..] == " }}" && p[3..|p| - 3] == key;
    if PlaceholderKey(text) == Some(key) {
      assert text == text[..3] + text[3..|text| - 3] + text[|text| - 3..];
    }
  }

  /** The request `fillInformation` builds for one property. */
  function FillRequest(f: Field): Request {
    ReplaceAllText(Placeholder(f.key), true, f.value)
  }

  /** `Object.keys(information).map(...)`: one request per key, in key order. */
  function FillRequests(info: seq<Field>): (reqs: seq<Request>)
    ensures |reqs| == |info|
    ensures forall i :: 0 <= i < |info| ==>
              reqs[i].text == Placeholder(info[i].key) && reqs[i].matchCase
              && reqs[i].replaceText == info[i].value
  {
    if info == [] then [] else [FillRequest(info[0])] + FillRequests(info[1..])
  }

  /** Since the keys of `information` are distinct, each request replaces the placeholder of its
      key by `information[key]`, and its pattern names that key. */
  lemma FillRequestsLookup(info: Information, i: nat)
    requires i < |info|
    ensures PlaceholderKey(FillRequests(info)[i].text) == Some(info[i].key)
    ensures Lookup(info, info[i].key) == Some(FillRequests(info)[i].replaceText)
  {
    PlaceholderRoundTrip(info[i].key, FillRequests(info)[i].text);
    assert HasKey(info, info[i].key);
  }

  /** The text that `handleSign` puts in place of `{{ mention }}`. */
  function Mention(dateText: string): string {
    "Ce document a été signé numériquement (" + dateText + ") par certificat P12"
  }

  /** `signature.replace(/^data:image\/png;base64,/, '')`. */
  function StripPngPrefix(signature: string): (data: string)
    ensures PngDataUriPrefix <= signature ==> PngDataUriPrefix + data == signature
    ensures !(PngDataUriPrefix <= signature) ==> data == signature
  {
    if PngDataUriPrefix <= signature then signature[|PngDataUriPrefix|..] else signature
  }

  /** The prefix is anchored: it is removed once, and only at the start. */
  lemma StripPngPrefixOnce(data: string)
    ensures StripPngPrefix(PngDataUriPrefix + data) == data
    ensures StripPngPrefix(PngDataUriPrefix + PngDataUriPrefix + data) == PngDataUriPrefix + data
  {
    assert PngDataUriPrefix <= PngDataUriPrefix + data;
    assert PngDataUriPrefix + PngDataUriPrefix + data == PngDataUriPrefix + (PngDataUriPrefix + data);
    assert PngDataUriPrefix <= PngDataUriPrefix + (PngDataUriPrefix + data);
  }

  function Digit(d: nat): (c: char)
    requires d < 10
    ensures '0' <= c <= '9'
  {
    ('0' as int + d) as char
  }

  /** `${n}` for a non-negative integer such as `Date.now()`. */
  function Decimal(n: nat): (s: string)
    ensures |s| >= 1 && forall i :: 0 <= i < |s| ==> '0' <= s[i] <= '9'
  {
    if n < 10 then [Digit(n)] else Decimal(n / 10) + [Digit(n % 10)]
  }

  function DecimalValue(s: string): nat
    requires forall i :: 0 <= i < |s| ==> '0' <= s[i] <= '9'
  {
    if s == [] then 0 else DecimalValue(s[..|s| - 1]) * 10 + (s[|s| - 1] as int - '0' as int)
  }

  lemma {:induction false} DecimalRoundTrip(n: nat)
    ensures DecimalValue(Decimal(n)) == n
  {
    if n >= 10 {
      var s := Decimal(n);
      assert s[..|s| - 1] == Decimal(n / 10);
      DecimalRoundTrip(n / 10);
    }
  }

  /** Distinct clock readings give distinct staged image files. */
  lemma DecimalInjective(m: nat, n: nat)
    requires Decimal(m) == Decimal(n)
    ensures m == n
  {
    DecimalRoundTrip(m);
    DecimalRoundTrip(n);
  }

  /** Where `insertSignature` stages the decoded image: `./documents/${Date.now()}.png`. */
  function ImagePath(now: nat): string {
    DocumentsDir + Decimal(now) + ".png"
  }

  /** Where `exportPdf` writes, and `numericSignDocument` rewrites: `./documents/${name}.pdf`. */
  function PdfPath(name: string): string {
    DocumentsDir + name + ".pdf"
  }

  /** Different document names never share a PDF file. */
  lemma PdfPathInjective(a: string, b: string)
    requires PdfPath(a) == PdfPath(b)
    ensures a == b
  {
    assert a == PdfPath(a)[|DocumentsDir|..|PdfPath(a)| - 4];
    assert b == PdfPath(b)[|DocumentsDir|..|PdfPath(b)| - 4];
  }

  /** `Math.floor(Math.random() * 900000)` for a draw in [0, 1). */
  function SmsCode(draw: real): (code: int)
    requires 0.0 <= draw < 1.0
    ensures 0 <= code <= 899999
  {
    (draw * SmsCodeSpan as real).Floor
  }

  /** Every code of the range can be minted. */
  lemma SmsCodeReachable(code: int)
    requires 0 <= code < SmsCodeSpan
    ensures 0.0 <= code as real / SmsCodeSpan as real < 1.0
    ensures SmsCode(code as real / SmsCodeSpan as real) == code
  {
    assert code as real / SmsCodeSpan as real * SmsCodeSpan as real == code as real;
  }

  // ---------------------------------------------------------------------------------------------
  // The effect sequences of each step

  /** What `insertSignature` does: stage the decoded image, then replace the marker by it. */
  function InsertEffects(signature: string, documentId: string, now: nat): seq<Effect> {
    [ WriteImage(ImagePath(now), StripPngPrefix(signature)),
      ReplaceTextWithImage(documentId, SignatureMarker, ImageSize, ImageSize, ImagePath(now)) ]
  }

  /** What `numericSignDocument` does to the file at `path`. */
  function StampEffects(path: string): seq<Effect> {
    [ReadPdf(path), AddPlaceholder(StampReason, SignatureLength), ReadCertificate, SignPdf,
     WritePdf(path)]
  }

  /** The stamp reads the file at `path`, adds the signature placeholder before signing, signs
      once, and writes the result back to the same path. */
  lemma StampOrder(path: string)
    ensures var es := StampEffects(path);
      && |es| == 5 && es[0] == ReadPdf(path) && es[4] == WritePdf(path)
      && (exists i, j :: 0 <= i < j < |es| && es[i] == AddPlaceholder("Signature process end.", 1612)
                                          && es[j] == SignPdf)
      && StampCount(es) == 2 && SignCount(es) == 1
  {
    var es := StampEffects(path);
    assert es[1] == AddPlaceholder("Signature process end.", 1612) && es[3] == SignPdf;
    StampCounts(es);
  }

  /** The counts of a five-step list whose second and fourth steps stamp and whose fourth
      signs. */
  lemma StampCounts(es: seq<Effect>)
    requires |es| == 5 && IsStamp(es[1]) && IsStamp(es[3]) && es[3].SignPdf?
    requires !IsStamp(es[0]) && !IsStamp(es[2]) && !IsStamp(es[4])
    requires !es[1].SignPdf?
    ensures StampCount(es) == 2 && SignCount(es) == 1
  {
    CountsCons(es[4], []);
    CountsCons(es[3], es[4..]);
    CountsCons(es[2], es[3..]);
    CountsCons(es[1], es[2..]);
    CountsCons(es[0], es[1..]);
    assert es[4..] == [es[4]] + [];
    assert es[3..] == [es[3]] + es[4..];
    assert es[2..] == [es[2]] + es[3..];
    assert es[1..] == [es[1]] + es[2..];
    assert es == [es[0]] + es[1..];
  }

  /** What `exportPdf` does: open the file, start the export and, when the stream ends, stamp
      the same file if asked to. */
  function ExportEffects(path: string, fileId: string, needStamp: bool, event: StreamEvent)
    : seq<Effect>
  {
    [OpenWriteStream(path), ExportFile(fileId, PdfMime)]
    + (if needStamp && event == End then StampEffects(path) else [])
  }

  /** The write stream is opened before the export is requested; the stamp follows the export,
      on the same path, exactly when it was asked for and the stream ended; after a stream error
      nothing follows. */
  lemma ExportOrder(path: string, fileId: string, needStamp: bool, event: StreamEvent)
    ensures var es := ExportEffects(path, fileId, needStamp, event);
      && |es| >= 2 && es[..2] == [OpenWriteStream(path), ExportFile(fileId, "application/pdf")]
      && (needStamp && event == End ==> es[2..] == StampEffects(path))
      && (!(needStamp && event == End) ==> |es| == 2)
      && StampCount(es) == (if needStamp && event == End then 2 else 0)
      && SignCount(es) == (if needStamp && event == End then 1 else 0)
  {
    var head := [OpenWriteStream(path), ExportFile(fileId, PdfMime)];
    var tail := if needStamp && event == End then StampEffects(path) else [];
    CountsCons(head[1], []);
    CountsCons(head[0], [head[1]]);
    CountsConcat(head, tail);
    StampOrder(path);
    assert (head + tail)[..2] == head && (head + tail)[2..] == tail;
  }

  /** The effects of `generateDocument`, up to and including `db.write`. */
  function GenerationEffects(params: Params, title: string, copyId: string, event: StreamEvent)
    : seq<Effect>
  {
    var name := CopyName(title, params.information);
    [GetDocument(params.documentId), CopyFile(params.documentId, name),
     BatchUpdate(copyId, FillRequests(params.information))]
    + ExportEffects(PdfPath(name), copyId, false, event)
    + (if event == End then [DbWrite] else [])
  }

  /** Generation reads the template and copies it under the derived name; then the copy, not the
      template, is filled and exported to the name's PDF path; the database is written last, and
      only when the export stream has ended. */
  lemma GenerationOrder(params: Params, title: string, copyId: string, event: StreamEvent)
    ensures var es := GenerationEffects(params, title, copyId, event);
      var name := CopyName(title, params.information);
      && |es| == (if event == End then 6 else 5)
      && es[0] == GetDocument(params.documentId)
      && es[1] == CopyFile(params.documentId, name)
      && es[2] == BatchUpdate(copyId, FillRequests(params.information))
      && es[3] == OpenWriteStream("./documents/" + name + ".pdf")
      && es[4] == ExportFile(copyId, "application/pdf")
      && (event == End ==> es[5] == DbWrite)
  {
    var name := CopyName(title, params.information);
    ExportOrder(PdfPath(name), copyId, false, event);
    var exporting := ExportEffects(PdfPath(name), copyId, false, event);
    assert exporting == exporting[..2];
  }

  /** Generation never stamps: the export runs without `needStamp`. */
  lemma GenerationNeverStamps(params: Params, title: string, copyId: string, event: StreamEvent)
    ensures StampCount(GenerationEffects(params, title, copyId, event)) == 0
    ensures SignCount(GenerationEffects(params, title, copyId, event)) == 0
  {
    var name := CopyName(title, params.information);
    var head := [GetDocument(params.documentId), CopyFile(params.documentId, name),
                 BatchUpdate(copyId, FillRequests(params.information))];
    var exporting := ExportEffects(PdfPath(name), copyId, false, event);
    var tail := if event == End then [DbWrite] else [];
    ExportOrder(PdfPath(name), copyId, false, event);
    CountsCons(head[2], []);
    CountsCons(head[1], [head[2]]);
    CountsCons(head[0], [head[1], head[2]]);
    CountsCons(DbWrite, []);
    CountsConcat(head, exporting);
    CountsConcat(head + exporting, tail);
  }

  /** The effects of `handleSign`: insert the signature, fill the mention, export and stamp. */
  function SigningEffects(document: Record, signature: string, now: nat, dateText: string,
                          event: StreamEvent): seq<Effect>
  {
    InsertEffects(signature, document.documentId, now)
    + [BatchUpdate(document.documentId, FillRequests([Field("mention", Mention(dateText))]))]
    + ExportEffects(PdfPath(document.name), document.documentId, true, event)
  }

  /** Signing works on the record's copy: the image is put in place of `{{ signature }}` at
      150x150 first, then exactly one request fills `{{ mention }}`, then the copy is exported to
      the record's PDF path, whose last write, when the export ends, is the stamped file. */
  lemma {:induction false} SigningOrder(document: Record, signature: string, now: nat,
                                        dateText: string, event: StreamEvent)
    ensures var es := SigningEffects(document, signature, now, dateText, event);
      && |es| >= 5
      && es[0] == WriteImage(ImagePath(now), StripPngPrefix(signature))
      && es[1] == ReplaceTextWithImage(document.documentId, "{{ signature }}", 150, 150,
                                       ImagePath(now))
      && es[2].BatchUpdate? && es[2].documentId == document.documentId
      && es[2].requests == [ReplaceAllText("{{ mention }}", true, Mention(dateText))]
      && es[3] == OpenWriteStream("./documents/" + document.name + ".pdf")
      && es[4] == ExportFile(document.documentId, "application/pdf")
      && (event == End ==> es[|es| - 1] == WritePdf("./documents/" + document.name + ".pdf"))
  {
    var ins := InsertEffects(signature, document.documentId, now);
    var fill := [BatchUpdate(document.documentId, FillRequests([Field("mention", Mention(dateText))]))];
    var exporting := ExportEffects(PdfPath(document.name), document.documentId, true, event);
    var es := SigningEffects(document, signature, now, dateText, event);
    assert es == ins + fill + exporting;
    assert FillRequests([Field("mention", Mention(dateText))])
           == [ReplaceAllText("{{ mention }}", true, Mention(dateText))] by {
      var f := Field("mention", Mention(dateText));
      assert [f][1..] == [];
      assert Placeholder("mention") == "{{ mention }}";
      assert FillRequests([f]) == [FillRequest(f)] + FillRequests([]);
    }
    assert es[3] == exporting[0] && es[4] == exporting[1];
    assert es[|es| - 1] == exporting[|exporting| - 1];
  }

  /** A signing run signs the PDF exactly once when the export ends, and never otherwise. */
  lemma SigningSignsOnce(document: Record, signature: string, now: nat, dateText: string,
                         event: StreamEvent)
    ensures SignCount(SigningEffects(document, signature, now, dateText, event))
            == if event == End then 1 else 0
  {
    var ins := InsertEffects(signature, document.documentId, now);
    var fill := [BatchUpdate(document.documentId, FillRequests([Field("mention", Mention(dateText))]))];
    var exporting := ExportEffects(PdfPath(document.name), document.documentId, true, event);
    ExportOrder(PdfPath(document.name), document.documentId, true, event);
    CountsConcat(ins + fill, exporting);
    CountsConcat(ins, fill);
    CountsCons(ins[1], []);
    CountsCons(ins[0], [ins[1]]);
    assert ins == [ins[0]] + [ins[1]];
    CountsCons(fill[0], []);
    assert fill == [fill[0]] + [];
  }

  // ---------------------------------------------------------------------------------------------
  // The service

  class DocumentGeneratorService {
    const db: Db

    /** The Google authorisation started by the constructor is not modelled. */
    constructor (db: Db)
      ensures this.db == db
    {
      this.db := db;
    }

    /** `createCopy`: read the template's title, copy it under the derived name, and hand back
        the copy's id. `title` and `copyId` are what the two provider calls return. */
    method CreateCopy(params: Params, w: World, title: string, copyId: string)
      returns (name: string, documentId: string)
      modifies w
      ensures name == CopyName(title, params.information) && documentId == copyId
      ensures w.effects == old(w.effects)
                           + [GetDocument(params.documentId), CopyFile(params.documentId, name)]
    {
      w.Perform(GetDocument(params.documentId));
      name := CopyName(title, params.information);
      w.Perform(CopyFile(params.documentId, name));
      documentId := copyId;
    }

    /** `fillInformation`: all the requests in one `batchUpdate` on `documentId`. */
    method FillInformation(information: Information, documentId: string, w: World)
      modifies w
      ensures w.effects == old(w.effects) + [BatchUpdate(documentId, FillRequests(information))]
    {
      var requests := FillRequests(information);
      w.Perform(BatchUpdate(documentId, requests));
    }

    /** `insertSignature`: resolves with whatever the library reports, an error included. */
    method InsertSignature(signature: string, documentId: string, w: World, now: nat,
                           reply: LibraryReply)
      returns (r: LibraryReply)
      modifies w
      ensures r == reply
      ensures w.effects == old(w.effects) + InsertEffects(signature, documentId, now)
    {
      var base64Data := StripPngPrefix(signature);
      var path := ImagePath(now);
      w.Perform(WriteImage(path, base64Data));
      w.Perform(ReplaceTextWithImage(documentId, SignatureMarker, ImageSize, ImageSize, path));
      r := reply;
    }

    /** `numericSignDocument`: placeholder first, then the signature, written back in place. */
    method NumericSignDocument(filePath: string, w: World)
      modifies w
      ensures w.effects == old(w.effects) + StampEffects(filePath)
    {
      w.Perform(ReadPdf(filePath));
      w.Perform(AddPlaceholder(StampReason, SignatureLength));
      w.Perform(ReadCertificate);
      w.Perform(SignPdf);
      w.Perform(WritePdf(filePath));
    }

    /** `exportPdf`: resolves with the path when the stream ends (after stamping, if asked),
        rejects on a stream error. */
    method ExportPdf(name: string, fileId: string, needStamp: bool, w: World, event: StreamEvent)
      returns (r: Completion<string>)
      modifies w
      ensures r == if event == End then Resolved(PdfPath(name)) else Rejected
      ensures w.effects == old(w.effects) + ExportEffects(PdfPath(name), fileId, needStamp, event)
    {
      var path := PdfPath(name);
      w.Perform(OpenWriteStream(path));
      w.Perform(ExportFile(fileId, PdfMime));
      match event {
        case End =>
          if needStamp {
            NumericSignDocument(path, w);
          }
          r := Resolved(path);
        case Error =>
          r := Rejected;
      }
    }

    /** `generateDocument`. On success exactly one record is appended to the documents and the
        whole list is written; when the export fails the promise rejects before any of that. */
    method GenerateDocument(params: Params, w: World, title: string, copyId: string,
                            event: StreamEvent, now: nat, draw: real)
      returns (r: Completion<()>)
      requires 0.0 <= draw < 1.0
      modifies db, w
      ensures r.Resolved? <==> event == End
      ensures w.effects == old(w.effects) + GenerationEffects(params, title, copyId, event)
      ensures event == End ==>
                db.documents == old(db.documents)
                                + [Record(now, CopyName(title, params.information), copyId, SmsCode(draw))]
                && db.file == db.documents
      ensures event == Error ==> db.documents == old(db.documents) && db.file == old(db.file)
    {
      ghost var before := w.effects;
      ghost var head := [GetDocument(params.documentId),
                         CopyFile(params.documentId, CopyName(title, params.information)),
                         BatchUpdate(copyId, FillRequests(params.information))];
      var name, documentId := CreateCopy(params, w, title, copyId);
      FillInformation(params.information, documentId, w);
      assert w.effects == before + head;
      var exported := ExportPdf(name, documentId, false, w, event);
      ghost var exporting := ExportEffects(PdfPath(name), copyId, false, event);
      assert w.effects == before + (head + exporting);
      if exported.Rejected? {
        assert GenerationEffects(params, title, copyId, event) == head + exporting;
        return Rejected;
      }
      var id := now;
      var smsCode := SmsCode(draw);
      db.documents := db.documents + [Record(id, name, documentId, smsCode)];
      db.Write(w);
      assert GenerationEffects(params, title, copyId, event) == head + exporting + [DbWrite];
      r := Resolved(());
    }

    /** `handleSign`: never touches the records. */
    method HandleSign(signature: string, document: Record, w: World, now: nat,
                      reply: LibraryReply, dateText: string, event: StreamEvent)
      returns (r: Completion<()>)
      modifies w
      ensures r.Resolved? <==> event == End
      ensures w.effects == old(w.effects) + SigningEffects(document, signature, now, dateText, event)
    {
      var documentId := document.documentId;
      var _ := InsertSignature(signature, documentId, w, now, reply);
      FillInformation([Field("mention", Mention(dateText))], document.documentId, w);
      var exported := ExportPdf(document.name, documentId, true, w, event);
      r := if exported.Resolved? then Resolved(()) else Rejected;
    }
  }
}
