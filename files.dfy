/** The filesystem handle: a map from path to the stored document, a YAML
    mapping kept as its key/value pairs. Directory creation and the bytes of
    the YAML encoding are not part of this model. */
module Files {
  import opened Wrappers

  type Document = map<string, string>

  class Fs {
    var files: map<string, Document>

    constructor (files: map<string, Document>)
      ensures this.files == files
    {
      this.files := files;
    }

    /** `WriteYAMLFile`: the document replaces whatever was at `path`. */
    method WriteYAMLFile(path: string, doc: Document)
      modifies this
      ensures files == old(files)[path := doc]
    {
      files := files[path := doc];
    }

    method Exists(path: string) returns (b: bool)
      ensures b <==> path in files
    {
      b := path in files;
    }

    /** `ReadFile`: `None` for a path that holds nothing. */
    method ReadFile(path: string) returns (doc: Option<Document>)
      ensures doc.Some? <==> path in files
      ensures doc.Some? ==> doc.value == files[path]
    {
      doc := if path in files then Some(files[path]) else None;
    }
  }
}
