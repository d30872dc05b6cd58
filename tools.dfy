/** What every tool handler shares: how its result becomes the text it returns. */
module Tools {
  import opened Wrappers

  /** The text a tool returns: the serialized value, or a literal sentence. */
  datatype Reply<T> = Serialized(value: T) | Message(text: string)

  /**
   * A handler does not catch: a client error becomes the tool's failure with
   * the same text, and a value is returned serialized.
   */
  function Respond<T>(r: Result<T, string>): (o: Result<Reply<T>, string>)
    ensures o.Err? <==> r.Err?
    ensures r.Err? ==> o.error == r.error
    ensures r.Ok? ==> o.value == Serialized(r.value)
  {
    match r
    case Ok(v) => Ok(Serialized(v))
    case Err(e) => Err(e)
  }

  const DeletedSuffix := " deleted successfully"

  /** The confirmation of a delete tool: `<Resource> <id> deleted successfully`. */
  function DeletedMessage(resource: string, id: string): (m: string)
    ensures |m| == |resource| + 1 + |id| + |DeletedSuffix|
    ensures m[..|resource| + 1] == resource + " "
    ensures m[|resource| + 1..|m| - |DeletedSuffix|] == id
    ensures m[|m| - |DeletedSuffix|..] == DeletedSuffix
  {
    var m := resource + " " + id + DeletedSuffix;
    assert m == (resource + " ") + id + DeletedSuffix;
    m
  }

  /** The confirmation names the deleted id: different ids give different sentences. */
  lemma DeletedMessageInjective(resource: string, id1: string, id2: string)
    requires DeletedMessage(resource, id1) == DeletedMessage(resource, id2)
    ensures id1 == id2
  {
    var m := DeletedMessage(resource, id1);
    assert id1 == m[|resource| + 1..|m| - |DeletedSuffix|];
  }

  /**
   * The reply of a delete tool: the confirmation sentence once the deletion
   * succeeded, never any entity data; the client's error otherwise.
   */
  function RespondDeleted(resource: string, id: string, r: Result<(), string>): (o: Result<Reply<()>, string>)
    ensures o.Err? <==> r.Err?
    ensures r.Err? ==> o.error == r.error
    ensures r.Ok? ==> o.value.Message? && o.value.text == DeletedMessage(resource, id)
  {
    match r
    case Ok(_) => Ok(Message(DeletedMessage(resource, id)))
    case Err(e) => Err(e)
  }
}
