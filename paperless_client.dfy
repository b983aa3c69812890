/**
 * The list logic of paperless-grocy-magic/app/paperless_client.py: the
 * custom-field lookup of a document, the lookup of tag and field ids by
 * name, the "unprocessed" filter of `get_documents_by_tag`, and the
 * update-or-append of a custom field in `update_custom_field`. The answers
 * of the Paperless server are oracle parameters.
 */
module PaperlessClient {
  import opened Wrappers
  import opened Decimal
  import opened Http

  /**
   * The `value` of a custom-field entry: `None` (also for a missing value),
   * a boolean, or any other JSON value (a number, a text, a list), of which
   * nothing but its difference from `None` and `False` matters here.
   */
  datatype FieldValue = Null | Bool(b: bool) | Other(json: string)

  /** One entry `{'field': id, 'value': v}` of a document's `custom_fields`; a missing `field` is `None`. */
  datatype CustomField = CustomField(field: Option<nat>, value: FieldValue)

  /** A document (`PaperlessDocument`) as far as the modelled code reads it; a missing `custom_fields` is the empty list. */
  datatype Document = Document(id: nat, title: string, customFields: seq<CustomField>)

  /** An entry of the tag or custom-field list: its `name` and its `id`, which may be missing. */
  datatype Named = Named(name: string, id: Option<nat>)

  /** A paged listing; `results` is `None` when the answer has no `results` key. */
  datatype Page<T> = Page(results: Option<seq<T>>)

  /** What `update_custom_field` sends: the document's `custom_fields` list. */
  type Patch = seq<CustomField>

  datatype Client = Client(baseUrl: string, apiKey: string) {

    function Url(endpoint: string): string {
      ApiUrl(baseUrl, endpoint)
    }
  }

  /** `PaperlessClient.__init__` (lines 36-38). */
  function NewClient(baseUrl: string, apiKey: string): Client {
    Client(BaseUrl(baseUrl), apiKey)
  }

  // ---------------------------------------------------------------------
  // Custom-field lookup
  // ---------------------------------------------------------------------

  /** The position of the first entry for `fieldId`, if there is one. */
  function FieldIndex(fields: seq<CustomField>, fieldId: nat): (r: Option<nat>)
    ensures r.Some? ==> r.value < |fields| && fields[r.value].field == Some(fieldId)
    ensures r.Some? ==> forall j :: 0 <= j < r.value ==> fields[j].field != Some(fieldId)
    ensures r.None? ==> forall j :: 0 <= j < |fields| ==> fields[j].field != Some(fieldId)
  {
    if fields == [] then None
    else if fields[0].field == Some(fieldId) then Some(0)
    else match FieldIndex(fields[1..], fieldId) {
      case Some(i) => Some(i + 1)
      case None => None
    }
  }

  /** `get_custom_field_value` (lines 25-30), entry by entry as the loop goes. */
  function CustomFieldValue(fields: seq<CustomField>, fieldId: nat): FieldValue {
    if fields == [] then Null
    else if fields[0].field == Some(fieldId) then fields[0].value
    else CustomFieldValue(fields[1..], fieldId)
  }

  /** The lookup gives the value of the first entry for the id, or `None` when no entry has it. */
  lemma {:induction false} CustomFieldValueFirst(fields: seq<CustomField>, fieldId: nat)
    ensures CustomFieldValue(fields, fieldId) == match FieldIndex(fields, fieldId) {
      case Some(i) => fields[i].value
      case None => Null
    }
  {
    if fields != [] && fields[0].field != Some(fieldId) {
      CustomFieldValueFirst(fields[1..], fieldId);
    }
  }

  // ---------------------------------------------------------------------
  // Ids by name
  // ---------------------------------------------------------------------

  /** The loops of `get_custom_field_id` and `get_tag_id` (lines 91-94, 102-105): the id of the first entry with the name. */
  function IdOfFirstNamed(entries: seq<Named>, name: string): (r: Option<nat>)
    ensures r.Some? ==> exists i :: 0 <= i < |entries| && entries[i].name == name && entries[i].id == r
  {
    if entries == [] then None
    else if entries[0].name == name then entries[0].id
    else IdOfFirstNamed(entries[1..], name)
  }

  /** `get_custom_field_id` / `get_tag_id` (lines 87-107) over the answer to the listing request. */
  function FindId(reply: Reply<Page<Named>>, name: string): (r: Option<nat>)
    ensures !(reply.Body? && reply.value.results.Some?) ==> r.None?
  {
    if reply.Body? && reply.value.results.Some? then IdOfFirstNamed(reply.value.results.value, name) else None
  }

  /** An entry named earlier than any other entry of that name decides the id, even when it has none. */
  lemma {:induction false} IdOfFirstNamedIsFirst(entries: seq<Named>, name: string, i: nat)
    requires i < |entries| && entries[i].name == name
    requires forall j :: 0 <= j < i ==> entries[j].name != name
    ensures IdOfFirstNamed(entries, name) == entries[i].id
  {
    if i > 0 {
      IdOfFirstNamedIsFirst(entries[1..], name, i - 1);
    }
  }

  // ---------------------------------------------------------------------
  // The unprocessed filter
  // ---------------------------------------------------------------------

  /** `value is None or value is False` (line 142): a field that was never set, or set to false. */
  predicate IsUnprocessed(doc: Document, fieldId: nat) {
    var v := CustomFieldValue(doc.customFields, fieldId);
    v == Null || v == Bool(false)
  }

  /** The documents the filter keeps, front to back. */
  function Unprocessed(docs: seq<Document>, fieldId: nat): (r: seq<Document>)
    ensures |r| <= |docs|
  {
    if docs == [] then []
    else (if IsUnprocessed(docs[0], fieldId) then [docs[0]] else []) + Unprocessed(docs[1..], fieldId)
  }

  /** The filter keeps exactly the documents whose field is unset or false. */
  lemma {:induction false} UnprocessedMembers(docs: seq<Document>, fieldId: nat, d: Document)
    ensures d in Unprocessed(docs, fieldId) <==> d in docs && IsUnprocessed(d, fieldId)
  {
    if docs != [] {
      UnprocessedMembers(docs[1..], fieldId, d);
      assert docs == [docs[0]] + docs[1..];
    }
  }

  /** The filter works on each part of the list separately, so the kept documents stay in their order. */
  lemma {:induction false} UnprocessedAppend(a: seq<Document>, b: seq<Document>, fieldId: nat)
    ensures Unprocessed(a + b, fieldId) == Unprocessed(a, fieldId) + Unprocessed(b, fieldId)
  {
    if a == [] {
      assert a + b == b;
    } else {
      var h := if IsUnprocessed(a[0], fieldId) then [a[0]] else [];
      assert (a + b)[0] == a[0];
      assert (a + b)[1..] == a[1..] + b;
      assert Unprocessed(a + b, fieldId) == h + Unprocessed(a[1..] + b, fieldId);
      UnprocessedAppend(a[1..], b, fieldId);
      assert h + (Unprocessed(a[1..], fieldId) + Unprocessed(b, fieldId))
          == (h + Unprocessed(a[1..], fieldId)) + Unprocessed(b, fieldId);
    }
  }

  /** The loop of lines 139-143. */
  method FilterUnprocessed(documents: seq<Document>, fieldId: nat) returns (unprocessed: seq<Document>)
    ensures unprocessed == Unprocessed(documents, fieldId)
  {
    unprocessed := [];
    var i := 0;
    while i < |documents|
      invariant 0 <= i <= |documents|
      invariant unprocessed == Unprocessed(documents[..i], fieldId)
    {
      var doc := documents[i];
      assert documents[..i + 1] == documents[..i] + [doc];
      UnprocessedAppend(documents[..i], [doc], fieldId);
      if IsUnprocessed(doc, fieldId) {
        unprocessed := unprocessed + [doc];
      }
      i := i + 1;
    }
    assert documents[..i] == documents;
  }

  function DocumentsUrl(c: Client, tagId: nat): string {
    c.Url("/documents/") + "?tags__id__all=" + NatText(tagId) + "&page_size=100"
  }

  /**
   * `get_documents_by_tag` (lines 109-148). No tag id, or no document
   * listing, gives no documents. With a processed-field name whose id is
   * found and non-zero, the unprocessed documents are kept; otherwise all
   * listed documents are returned.
   */
  method GetDocumentsByTag(c: Client, tagName: string, processedFieldName: Option<string>,
                           tags: Reply<Page<Named>>, listing: Reply<Page<Document>>, fields: Reply<Page<Named>>)
    returns (docs: seq<Document>, sent: seq<Request<Patch>>)
    ensures FindId(tags, tagName).None? ==> docs == [] && sent == [Get(c.Url("/tags/"))]
    ensures FindId(tags, tagName).Some? ==> |sent| >= 2 && sent[..2] == [Get(c.Url("/tags/")), Get(DocumentsUrl(c, FindId(tags, tagName).value))]
    ensures FindId(tags, tagName).Some? && !(listing.Body? && listing.value.results.Some?) ==> docs == [] && |sent| == 2
    ensures FindId(tags, tagName).Some? && listing.Body? && listing.value.results.Some? ==>
      var all := listing.value.results.value;
      if processedFieldName.Some? && processedFieldName.value != "" then
        var fieldId := FindId(fields, processedFieldName.value);
        && sent[2..] == [Get(c.Url("/custom_fields/"))]
        && docs == (if fieldId.Some? && fieldId.value != 0 then Unprocessed(all, fieldId.value) else all)
      else
        |sent| == 2 && docs == all
  {
    sent := [Get(c.Url("/tags/"))];
    var tagId := FindId(tags, tagName);
    if tagId.None? {
      return [], sent;
    }
    sent := sent + [Get(DocumentsUrl(c, tagId.value))];
    if !(listing.Body? && listing.value.results.Some?) {
      return [], sent;
    }
    var documents := listing.value.results.value;
    if processedFieldName.Some? && processedFieldName.value != "" {
      sent := sent + [Get(c.Url("/custom_fields/"))];
      var fieldId := FindId(fields, processedFieldName.value);
      if fieldId.Some? && fieldId.value != 0 {
        docs := FilterUnprocessed(documents, fieldId.value);
        return docs, sent;
      }
    }
    docs := documents;
  }

  // ---------------------------------------------------------------------
  // Update or append
  // ---------------------------------------------------------------------

  /** `custom_fields` after lines 183-191: the first entry for the id gets the value, or a new entry is appended. */
  function UpdatedFields(fields: seq<CustomField>, fieldId: nat, value: bool): seq<CustomField> {
    match FieldIndex(fields, fieldId) {
      case Some(k) => fields[k := fields[k].(value := Bool(value))]
      case None => fields + [CustomField(Some(fieldId), Bool(value))]
    }
  }

  /**
   * After the update, looking the field up gives the new value. An existing
   * field keeps the list's length and changes only its first entry; a new
   * one is appended at the end and leaves every other entry as it was.
   */
  lemma UpdatedFieldsLookup(fields: seq<CustomField>, fieldId: nat, value: bool)
    ensures CustomFieldValue(UpdatedFields(fields, fieldId, value), fieldId) == Bool(value)
    ensures FieldIndex(fields, fieldId).Some? ==>
      var r := UpdatedFields(fields, fieldId, value);
      var k := FieldIndex(fields, fieldId).value;
      && |r| == |fields|
      && r[k] == CustomField(Some(fieldId), Bool(value))
      && forall j :: 0 <= j < |fields| && j != k ==> r[j] == fields[j]
    ensures FieldIndex(fields, fieldId).None? ==>
      UpdatedFields(fields, fieldId, value) == fields + [CustomField(Some(fieldId), Bool(value))]
  {
    var r := UpdatedFields(fields, fieldId, value);
    match FieldIndex(fields, fieldId) {
      case Some(k) =>
        FieldIndexOfFirst(r, fieldId, k);
      case None =>
        FieldIndexOfFirst(r, fieldId, |fields|);
    }
    CustomFieldValueFirst(r, fieldId);
  }

  /** An entry with no earlier entry for the same id is the one `FieldIndex` finds. */
  lemma FieldIndexOfFirst(fields: seq<CustomField>, fieldId: nat, k: nat)
    requires k < |fields| && fields[k].field == Some(fieldId)
    requires forall j :: 0 <= j < k ==> fields[j].field != Some(fieldId)
    ensures FieldIndex(fields, fieldId) == Some(k)
  {
    var r := FieldIndex(fields, fieldId);
    if r.Some? {
      assert !(r.value < k) && !(k < r.value);
    }
  }

  /** The loop of lines 183-191, with its `field_found` flag and `break`. */
  method UpdateOrAppend(fields: seq<CustomField>, fieldId: nat, value: bool) returns (updated: seq<CustomField>)
    ensures updated == UpdatedFields(fields, fieldId, value)
  {
    updated := fields;
    var found := false;
    var i := 0;
    while i < |fields|
      invariant 0 <= i <= |fields|
      invariant forall j :: 0 <= j < i ==> fields[j].field != Some(fieldId)
      invariant !found && updated == fields
    {
      if fields[i].field == Some(fieldId) {
        updated := fields[i := fields[i].(value := Bool(value))];
        found := true;
        FieldIndexOfFirst(fields, fieldId, i);
        break;
      }
      i := i + 1;
    }
    if !found {
      updated := updated + [CustomField(Some(fieldId), Bool(value))];
    }
  }

  function DocumentUrl(c: Client, documentId: nat): string {
    c.Url("/documents/" + NatText(documentId) + "/")
  }

  /**
   * `update_custom_field` (lines 166-202): no field id, or a document that
   * cannot be read, fails before any PATCH; otherwise the updated field list
   * is sent and any answer at all, `{}` included, counts as success.
   */
  method UpdateCustomField(c: Client, documentId: nat, fieldName: string, value: bool,
                           fields: Reply<Page<Named>>, document: Reply<Document>, patched: Reply<()>)
    returns (ok: bool, sent: seq<Request<Patch>>)
    ensures FindId(fields, fieldName).None? ==> !ok && sent == [Get(c.Url("/custom_fields/"))]
    ensures FindId(fields, fieldName).Some? && !document.Truthy() ==>
      !ok && sent == [Get(c.Url("/custom_fields/")), Get(DocumentUrl(c, documentId))]
    ensures FindId(fields, fieldName).Some? && document.Truthy() ==>
      && sent == [Get(c.Url("/custom_fields/")), Get(DocumentUrl(c, documentId)),
                  Patch(DocumentUrl(c, documentId),
                        UpdatedFields(document.value.customFields, FindId(fields, fieldName).value, value))]
      && (ok <==> patched.IsNotNone())
  {
    sent := [Get(c.Url("/custom_fields/"))];
    var fieldId := FindId(fields, fieldName);
    if fieldId.None? {
      return false, sent;
    }
    sent := sent + [Get(DocumentUrl(c, documentId))];
    if !document.Truthy() {
      return false, sent;
    }
    var customFields := UpdateOrAppend(document.value.customFields, fieldId.value, value);
    sent := sent + [Patch(DocumentUrl(c, documentId), customFields)];
    ok := patched.IsNotNone();
  }
}
