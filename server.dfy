/**
 * The HTTP routes of index.mjs that drive the workflow: `POST /generate-document` and the
 * one-time-code gate of `POST /sign/:id`. JavaScript's unary `+` is the `normalise` parameter:
 * `Some(n)` for a string that converts to the integer `n`, `None` for one that converts to `NaN`
 * or to a non-integer, neither of which is `===` to any record's integer fields.
 */
module Server {
  import opened Wrappers
  import opened Effects
  import opened Store
  import opened DocumentGenerator

  /** What a route handler answers. `NoReply`: its promise rejected or it threw, so the handler
      itself never sends a response. */
  datatype Reply = JsonMessage(message: string) | SendStatus(status: int) | NoReply

  /** The body of `POST /sign/:id`. */
  datatype SignBody = SignBody(smsCode: string, signature: string)

  /** The outcome of the one-time-code check. */
  datatype GateDecision = NoRecord | Mismatch(record: Record) | Accept(record: Record)

  /** `document.id === key` for a coerced route parameter. */
  predicate Matches(r: Record, key: Option<int>) {
    key == Some(r.id)
  }

  /** `documents.find(document => document.id === key)`: the first matching record. */
  function Find(documents: seq<Record>, key: Option<int>): (found: Option<Record>)
    ensures found.None? <==> forall i :: 0 <= i < |documents| ==> !Matches(documents[i], key)
    ensures found.Some? ==>
              exists i :: 0 <= i < |documents| && documents[i] == found.value
                          && Matches(found.value, key)
                          && forall j :: 0 <= j < i ==> !Matches(documents[j], key)
  {
    if documents == [] then None
    else if Matches(documents[0], key) then Some(documents[0])
    else
      var found := Find(documents[1..], key);
      assert forall i :: 1 <= i < |documents| ==> documents[i] == documents[1..][i - 1];
      found
  }

  /** `+req.body.smsCode !== document.smsCode`, where reading `smsCode` of a missing record
      throws before the comparison. */
  function Gate(found: Option<Record>, code: Option<int>): (d: GateDecision)
    ensures d.NoRecord? <==> found.None?
    ensures d.Accept? <==> found.Some? && code == Some(found.value.smsCode)
    ensures !d.NoRecord? ==> d.record == found.value
  {
    match found
    case None => NoRecord
    case Some(document) =>
      if code != Some(document.smsCode) then Mismatch(document) else Accept(document)
  }

  /** The decision `POST /sign/:id` takes over the records it has just read. */
  function SignDecision(documents: seq<Record>, idParam: string, smsCode: string,
                        normalise: string -> Option<int>): GateDecision
  {
    Gate(Find(documents, normalise(idParam)), normalise(smsCode))
  }

  /** The gate opens exactly for a stored record whose id is the coerced route parameter, none
      earlier in the list having that id, and whose stored code is the coerced submitted code. */
  lemma SignDecisionAccepts(documents: seq<Record>, idParam: string, smsCode: string,
                            normalise: string -> Option<int>, record: Record)
    ensures SignDecision(documents, idParam, smsCode, normalise) == Accept(record)
            <==> exists i :: 0 <= i < |documents| && documents[i] == record
                             && normalise(idParam) == Some(record.id)
                             && normalise(smsCode) == Some(record.smsCode)
                             && forall j :: 0 <= j < i ==> !Matches(documents[j], normalise(idParam))
  {
    var key := normalise(idParam);
    var found := Find(documents, key);
    if exists i :: 0 <= i < |documents| && documents[i] == record && key == Some(record.id)
                   && normalise(smsCode) == Some(record.smsCode)
                   && forall j :: 0 <= j < i ==> !Matches(documents[j], key) {
      var i :| 0 <= i < |documents| && documents[i] == record && key == Some(record.id)
               && normalise(smsCode) == Some(record.smsCode)
               && forall j :: 0 <= j < i ==> !Matches(documents[j], key);
      assert Matches(documents[i], key);
      var k :| 0 <= k < |documents| && documents[k] == found.value && Matches(found.value, key)
               && forall j :: 0 <= j < k ==> !Matches(documents[j], key);
      assert !(k < i) && !(i < k);
    }
  }

  /** A wrong code, or a code that is not a number, is refused even when the record exists. */
  lemma WrongCodeRefused(documents: seq<Record>, idParam: string, smsCode: string,
                         normalise: string -> Option<int>, i: nat)
    requires i < |documents| && normalise(idParam) == Some(documents[i].id)
    requires forall j :: 0 <= j < |documents| && documents[j].id == documents[i].id
                         ==> normalise(smsCode) != Some(documents[j].smsCode)
    ensures SignDecision(documents, idParam, smsCode, normalise).Mismatch?
  {
    assert Matches(documents[i], normalise(idParam));
  }

  /** `POST /generate-document`: answers `ok` only once `generateDocument` has resolved. */
  method PostGenerateDocument(service: DocumentGeneratorService, w: World, body: Params,
                              title: string, copyId: string, event: StreamEvent, now: nat,
                              draw: real)
    returns (reply: Reply)
    requires 0.0 <= draw < 1.0
    modifies service.db, w
    ensures w.effects == old(w.effects) + GenerationEffects(body, title, copyId, event)
    ensures reply == if event == End then JsonMessage("ok") else NoReply
    ensures event == End ==>
              service.db.documents
              == old(service.db.documents)
                 + [Record(now, CopyName(title, body.information), copyId, SmsCode(draw))]
              && service.db.file == service.db.documents
    ensures event == Error ==> service.db.documents == old(service.db.documents)
                               && service.db.file == old(service.db.file)
  {
    var generated := service.GenerateDocument(body, w, title, copyId, event, now, draw);
    if generated.Rejected? {
      return NoReply;
    }
    reply := JsonMessage("ok");
  }

  /** `POST /sign/:id`. The records are re-read from the file and never changed. Without a
      record the handler throws; on a code mismatch it answers 401 having done nothing but the
      read; on a match it calls `handleSign` once and answers `ok` when that resolves. */
  method PostSign(service: DocumentGeneratorService, w: World, idParam: string, body: SignBody,
                  normalise: string -> Option<int>, now: nat, libraryReply: LibraryReply,
                  dateText: string, event: StreamEvent)
    returns (reply: Reply)
    modifies service.db, w
    ensures service.db.documents == old(service.db.file) && service.db.file == old(service.db.file)
    ensures match SignDecision(old(service.db.file), idParam, body.smsCode, normalise)
            case NoRecord =>
              reply == NoReply && w.effects == old(w.effects) + [DbRead]
            case Mismatch(_) =>
              reply == SendStatus(401) && w.effects == old(w.effects) + [DbRead]
            case Accept(document) =>
              && w.effects == old(w.effects) + [DbRead]
                              + SigningEffects(document, body.signature, now, dateText, event)
              && reply == (if event == End then JsonMessage("ok") else NoReply)
  {
    service.db.Read(w);
    var found := Find(service.db.documents, normalise(idParam));
    if found.None? {
      // `document.smsCode` on `undefined` throws a TypeError.
      return NoReply;
    }
    var document := found.value;
    if normalise(body.smsCode) != Some(document.smsCode) {
      return SendStatus(401);
    }
    var signed := service.HandleSign(body.signature, document, w, now, libraryReply, dateText,
                                     event);
    if signed.Rejected? {
      return NoReply;
    }
    reply := JsonMessage("ok");
  }

  /** An accepted signing request adds one signature to whatever was done before. */
  lemma SignedOnceMore(before: seq<Effect>, document: Record, signature: string, now: nat,
                       dateText: string)
    ensures SignCount(before + [DbRead] + SigningEffects(document, signature, now, dateText, End))
            == SignCount(before) + 1
  {
    var signing := SigningEffects(document, signature, now, dateText, End);
    SigningSignsOnce(document, signature, now, dateText, End);
    CountsCons(DbRead, signing);
    CountsConcat(before, [DbRead] + signing);
    assert before + [DbRead] + signing == before + ([DbRead] + signing);
  }

  /** Nothing records that a code was used: a signing request accepted once is accepted again
      with the same code, and each acceptance signs the PDF once more. */
  method SignTwice(service: DocumentGeneratorService, w: World, idParam: string, body: SignBody,
                   normalise: string -> Option<int>, now: nat, libraryReply: LibraryReply,
                   dateText: string)
    returns (first: Reply, second: Reply)
    requires SignDecision(service.db.file, idParam, body.smsCode, normalise).Accept?
    modifies service.db, w
    ensures first == JsonMessage("ok") && second == JsonMessage("ok")
    ensures SignCount(w.effects) == SignCount(old(w.effects)) + 2
    ensures service.db.file == old(service.db.file)
  {
    ghost var document := SignDecision(service.db.file, idParam, body.smsCode, normalise).record;
    ghost var before := w.effects;
    first := PostSign(service, w, idParam, body, normalise, now, libraryReply, dateText, End);
    SignedOnceMore(before, document, body.signature, now, dateText);
    ghost var middle := w.effects;
    second := PostSign(service, w, idParam, body, normalise, now, libraryReply, dateText, End);
    SignedOnceMore(middle, document, body.signature, now, dateText);
  }

  /** A restart as written: the database is created over the stored file and never read, so
      the first generation writes a one-record list over `db.json` and the stored records are
      gone. */
  method RestartThenGenerate(stored: seq<Record>, body: Params, title: string, copyId: string,
                             now: nat, draw: real)
    returns (file: seq<Record>)
    requires 0.0 <= draw < 1.0
    ensures file == [Record(now, CopyName(title, body.information), copyId, SmsCode(draw))]
    ensures stored != [] ==>
              file != stored + [Record(now, CopyName(title, body.information), copyId, SmsCode(draw))]
  {
    var db := new Db(stored);
    var service := new DocumentGeneratorService(db);
    var w := new World();
    var _ := PostGenerateDocument(service, w, body, title, copyId, End, now, draw);
    file := db.file;
  }

  /** The intended start-up: `db.read()` once before serving, after which a generation keeps
      every stored record and appends the new one. */
  method RestartReadThenGenerate(stored: seq<Record>, body: Params, title: string,
                                 copyId: string, now: nat, draw: real)
    returns (file: seq<Record>)
    requires 0.0 <= draw < 1.0
    ensures file == stored + [Record(now, CopyName(title, body.information), copyId, SmsCode(draw))]
  {
    var db := new Db(stored);
    var service := new DocumentGeneratorService(db);
    var w := new World();
    db.Read(w);
    var _ := PostGenerateDocument(service, w, body, title, copyId, End, now, draw);
    file := db.file;
  }
}
