/**
 * The outside world as the signing service sees it: every call into the Google APIs, the
 * `gdoctableapp` image library, the file system, `node-signpdf` and lowdb is recorded, in order,
 * as an abstract effect in a log. Nothing about the remote documents or the files' bytes is kept.
 */
module Effects {

  /** One `replaceAllText` request of a Google Docs `batchUpdate`. */
  datatype Request = ReplaceAllText(text: string, matchCase: bool, replaceText: string)

  datatype Effect =
    | GetDocument(documentId: string)                   // docs.documents.get
    | CopyFile(fileId: string, name: string)            // drive.files.copy
    | BatchUpdate(documentId: string, requests: seq<Request>)
    | WriteImage(path: string, base64Data: string)      // fs.writeFileSync(path, data, 'base64')
    | ReplaceTextWithImage(documentId: string, searchText: string,
                           width: nat, height: nat, imagePath: string)
    | OpenWriteStream(path: string)                     // fs.createWriteStream
    | ExportFile(fileId: string, mimeType: string)      // drive.files.export as a stream
    | ReadPdf(path: string)                             // fs.readFileSync of the exported PDF
    | AddPlaceholder(reason: string, signatureLength: nat)
    | ReadCertificate                                   // fs.readFileSync of the P12 bundle
    | SignPdf                                           // SignPdf.sign with the P12 passphrase
    | WritePdf(path: string)                            // fs.writeFileSync of the signed bytes
    | DbRead
    | DbWrite

  /** The two `node-signpdf` steps that put the cryptographic stamp on a PDF. */
  predicate IsStamp(e: Effect) {
    e.AddPlaceholder? || e.SignPdf?
  }

  /** How many `node-signpdf` stamping steps were taken. */
  function StampCount(es: seq<Effect>): nat {
    if es == [] then 0 else (if IsStamp(es[0]) then 1 else 0) + StampCount(es[1..])
  }

  /** How many times a PDF was cryptographically signed. */
  function SignCount(es: seq<Effect>): nat {
    if es == [] then 0 else (if es[0].SignPdf? then 1 else 0) + SignCount(es[1..])
  }

  lemma CountsCons(e: Effect, es: seq<Effect>)
    ensures StampCount([e] + es) == (if IsStamp(e) then 1 else 0) + StampCount(es)
    ensures SignCount([e] + es) == (if e.SignPdf? then 1 else 0) + SignCount(es)
  {
    assert ([e] + es)[1..] == es;
  }

  lemma {:induction false} CountsConcat(a: seq<Effect>, b: seq<Effect>)
    ensures StampCount(a + b) == StampCount(a) + StampCount(b)
    ensures SignCount(a + b) == SignCount(a) + SignCount(b)
  {
    if a == [] {
      assert a + b == b;
    } else {
      assert a + b == [a[0]] + (a[1..] + b);
      assert a == [a[0]] + a[1..];
      CountsCons(a[0], a[1..] + b);
      CountsCons(a[0], a[1..]);
      CountsConcat(a[1..], b);
    }
  }

  /** The log of effects performed so far. */
  class World {
    var effects: seq<Effect>

    constructor ()
      ensures effects == []
    {
      effects := [];
    }

    method Perform(e: Effect)
      modifies this
      ensures effects == old(effects) + [e]
    {
      effects := effects + [e];
    }
  }
}
