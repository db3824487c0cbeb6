/** The records the client exchanges with the paste backend. They carry no
    behaviour of their own. */
module Models {

  import opened Wrappers

  /** A stored document of a paste. */
  datatype Document = Document(id: string, paste_id: string, type_: string, name: string, content: string)

  /** A document being composed in the editor; `id` is a local random number,
      `overrideType` marks a content type the user chose by hand. */
  datatype NewDocument = NewDocument(id: int, overrideType: bool, type_: string, name: string, content: string)

  /** A document as the backend lists it, without its content. */
  datatype ResponseDocument = ResponseDocument(id: string, paste_id: string, type_: string, name: string)

  /** A paste being composed: whether an expiry applies, the expiry the
      editor holds, and the documents in order. */
  datatype NewPaste = NewPaste(enableExpiry: bool, expiry: string, documents: seq<NewDocument>)

  /** A paste as the backend returns it. The source types the times as
      `Date`, but the parsed JSON body is returned without conversion, so
      they hold whatever number the server sent; `token` is present only in
      the answer to a creation. */
  datatype Paste = Paste(
    id: string,
    name: Option<string>,
    token: Option<string>,
    timestamp: int,
    edited_timestamp: Option<int>,
    expiry_timestamp: Option<int>,
    views: int,
    max_views: Option<int>,
    documents: seq<Document>)

  /** The limits the backend announces. */
  datatype Config = Config(
    default_expiry: Option<int>,
    maximum_expiry: Option<int>,
    maximum_document_count: int,
    maximum_document_size: int,
    maximum_total_document_size: int)
}
