/**
 * The lowdb database of index.mjs: a JSON file adapter behind an in-memory `data` object whose
 * `documents` array the service pushes into. `read` replaces the in-memory data by the file's,
 * `write` replaces the file's by the in-memory data.
 */
module Store {
  import opened Effects

  /** One entry of `db.data.documents`. */
  datatype Record = Record(id: int, name: string, documentId: string, smsCode: int)

  class Db {
    var documents: seq<Record>  // db.data.documents
    var file: seq<Record>       // the documents held in db.json

    /** `new Low(adapter, { documents: [] })`: the file is not read. */
    constructor (file: seq<Record>)
      ensures documents == [] && this.file == file
    {
      documents := [];
      this.file := file;
    }

    method Read(w: World)
      modifies this, w
      ensures documents == old(file) && file == old(file)
      ensures w.effects == old(w.effects) + [DbRead]
    {
      w.Perform(DbRead);
      documents := file;
    }

    method Write(w: World)
      modifies this, w
      ensures documents == old(documents) && file == old(documents)
      ensures w.effects == old(w.effects) + [DbWrite]
    {
      w.Perform(DbWrite);
      file := documents;
    }
  }
}
