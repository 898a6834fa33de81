/**
 * Extraction of the parsed text from a webhook response
 * (`tools.helper.process_response`). Every exception the navigation can
 * raise is caught and turned into None, so the function is total.
 */
module Helper {
  import opened Json

  /** `response.get("status") == "OK"` on a dictionary. */
  predicate StatusOk(response: Json)
  {
    response.JObj? && Lookup(response.entries, "status") == Some(JStr("OK"))
  }

  /** A list index as Python accepts it: an int, or a bool (False is 0, True is 1). */
  function AsIndex(j: Json): Option<int>
  {
    match j
    case JNum(n) => Some(n)
    case JBool(b) => Some(if b then 1 else 0)
    case _ => None
  }

  /**
   * `objects[next(iter(objects))]` for a truthy `objects`, None where Python
   * raises: a dictionary yields the value of its first key; a list is
   * subscripted by its own first element, which must be an index in range;
   * a string is subscripted by a character and a number is not iterable.
   */
  function FirstObject(objects: Json): (r: Option<Json>)
    ensures objects.JObj? && objects.entries != [] ==> r == Some(objects.entries[0].value)
    ensures objects.JStr? || objects.JNum? || objects.JBool? || objects.JNull? ==> r.None?
  {
    match objects
    case JObj(es) => if es == [] then None else Some(es[0].value)
    case JArr(items) =>
      if items == [] then None
      else
        var index := AsIndex(items[0]);
        if index.Some? && -|items| <= index.value < |items|
        then Some(items[if index.value < 0 then index.value + |items| else index.value])
        else None
    case _ => None
  }

  /** `text_list[0] if isinstance(text_list, list) else text_list`, after the emptiness test. */
  function FirstText(text: Json): Option<Json>
  {
    if !Truthy(text) then None
    else if text.JArr? then Some(text.items[0])
    else Some(text)
  }

  /** The part of `process_response` after `objects` has been read. */
  function FromObjects(objects: Json): Option<Json>
  {
    if !Truthy(objects) then None
    else match FirstObject(objects)
      case None => None
      case Some(first) =>
        if first.JObj? then FirstText(GetOr(first.entries, "text", JArr([]))) else None
  }

  /** `process_response`. */
  function ProcessResponse(response: Json): (r: Option<Json>)
    // anything but an "OK" status gives None
    ensures r.Some? ==> StatusOk(response)
    // a text is only found under a dictionary `data`
    ensures r.Some? ==> GetOr(response.entries, "data", JObj([])).JObj?
  {
    if !StatusOk(response) then None
    else
      var data := GetOr(response.entries, "data", JObj([]));
      if !data.JObj? then None
      else FromObjects(GetOr(data.entries, "objects", JObj([])))
  }

  /** The documented shape: the first element of the first object's text list is returned. */
  lemma ListTextGivesFirst(response: Json, data: seq<Entry>, objects: seq<Entry>, first: seq<Entry>,
                           texts: seq<Json>)
    requires StatusOk(response)
    requires Lookup(response.entries, "data") == Some(JObj(data))
    requires Lookup(data, "objects") == Some(JObj(objects)) && objects != []
    requires objects[0].value == JObj(first)
    requires Lookup(first, "text") == Some(JArr(texts)) && texts != []
    ensures ProcessResponse(response) == Some(texts[0])
  {
  }

  /** A truthy text that is not a list is returned as it is. */
  lemma ScalarTextReturned(response: Json, data: seq<Entry>, objects: seq<Entry>, first: seq<Entry>, text: Json)
    requires StatusOk(response)
    requires Lookup(response.entries, "data") == Some(JObj(data))
    requires Lookup(data, "objects") == Some(JObj(objects)) && objects != []
    requires objects[0].value == JObj(first)
    requires Lookup(first, "text") == Some(text) && Truthy(text) && !text.JArr?
    ensures ProcessResponse(response) == Some(text)
  {
  }

  /** A missing or falsy text in the first object gives None. */
  lemma NoTextGivesNone(response: Json, data: seq<Entry>, objects: seq<Entry>, first: seq<Entry>)
    requires StatusOk(response)
    requires Lookup(response.entries, "data") == Some(JObj(data))
    requires Lookup(data, "objects") == Some(JObj(objects)) && objects != []
    requires objects[0].value == JObj(first)
    requires Lookup(first, "text").None? || !Truthy(Lookup(first, "text").value)
    ensures ProcessResponse(response) == None
  {
  }

  /** No `data`, no `objects`, or no object at all: None. */
  lemma NoObjectsGivesNone(response: Json)
    requires response.JObj?
    requires var data := Lookup(response.entries, "data");
             || data.None?
             || (data.value.JObj? && (Lookup(data.value.entries, "objects").None?
                                      || Lookup(data.value.entries, "objects") == Some(JObj([]))))
    ensures ProcessResponse(response) == None
  {
  }

  /** Only the first object is looked at: what follows it makes no difference. */
  lemma OnlyFirstObjectConsulted(first: Entry, rest: seq<Entry>, others: seq<Entry>)
    ensures FromObjects(JObj([first] + rest)) == FromObjects(JObj([first] + others))
  {
  }

  /** The example in the function's documentation. */
  lemma DocumentedExample()
    ensures ProcessResponse(JObj([
              Entry("status", JStr("OK")),
              Entry("data", JObj([
                Entry("objects", JObj([
                  Entry("some-uuid", JObj([
                    Entry("text", JArr([JStr("actual text content here")]))]))]))]))]))
            == Some(JStr("actual text content here"))
  {
  }
}
