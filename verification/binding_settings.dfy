/** The settings code of lollms_binding_infos.py: the endpoint that reads the active
    binding's configuration template, and the plain function (no route) that writes
    entries back after rewriting list-typed values that arrived as JSON text.

    `json.loads` is a parameter `parse` that answers None where it would raise.
 */
module BindingSettings {
  import opened Wrappers
  import opened ServerState

  /** A JSON value. Numbers keep their literal text; nothing here computes with them. */
  datatype Json =
    | JNull
    | JBool(b: bool)
    | JNumber(literal: string)
    | JString(text: string)
    | JList(items: seq<Json>)
    | JObject(fields: map<string, Json>)

  /** One settings entry, a JSON object such as {"name": ..., "type": "list", "value": ...}. */
  type Entry = map<string, Json>

  const TypeKey: string := "type"
  const ValueKey: string := "value"

  /** The entry, which has a type, is declared as a list. */
  predicate ListTyped(e: Entry)
    requires TypeKey in e
  {
    e[TypeKey] == JString("list")
  }

  /** A list-typed entry whose value is text: the only shape the setter rewrites. */
  predicate ListText(e: Entry)
  {
    TypeKey in e && ListTyped(e) && ValueKey in e && e[ValueKey].JString?
  }

  /** Rewrites one entry. A list-typed text value becomes the list it parses to, or a
      one-element list holding the original text when it does not parse to a list.
      A missing key that the source reads raises KeyError, reported by its name. */
  function NormaliseEntry(e: Entry, parse: string -> Option<Json>): (r: Result<Entry, string>)
    ensures r.Failure? <==> TypeKey !in e || (ListTyped(e) && ValueKey !in e)
    ensures r.Failure? ==> r.error == (if TypeKey !in e then TypeKey else ValueKey)
    ensures r.Success? ==>
              && r.value.Keys == e.Keys
              && forall k :: k in e && k != ValueKey ==> r.value[k] == e[k]
    ensures r.Success? && !ListText(e) ==> r.value == e
    ensures r.Success? && ListText(e) ==>
              var parsed := parse(e[ValueKey].text);
              if parsed.Some? && parsed.value.JList?
              then r.value[ValueKey] == parsed.value
              else r.value[ValueKey] == JList([e[ValueKey]])
    ensures r.Success? ==> !ListText(r.value)
  {
    if TypeKey !in e then Failure(TypeKey)
    else if !ListTyped(e) then Success(e)
    else if ValueKey !in e then Failure(ValueKey)
    else
      match e[ValueKey]
      case JString(t) =>
        var v := parse(t);
        // a parse failure and a non-list result both keep the original text
        if v.Some? && v.value.JList? then Success(e[ValueKey := v.value])
        else Success(e[ValueKey := JList([JString(t)])])
      case _ => Success(e)
  }

  /** Rewrites the entries one by one; the first entry missing a key it needs raises. */
  function NormaliseAll(data: seq<Entry>, parse: string -> Option<Json>): (r: Result<seq<Entry>, string>)
    ensures r.Success? <==> forall i :: 0 <= i < |data| ==> NormaliseEntry(data[i], parse).Success?
    ensures r.Success? ==>
              && |r.value| == |data|
              && forall i :: 0 <= i < |data| ==> NormaliseEntry(data[i], parse) == Success(r.value[i])
    ensures r.Failure? ==>
              exists i :: 0 <= i < |data|
                && NormaliseEntry(data[i], parse) == Failure(r.error)
                && forall j :: 0 <= j < i ==> NormaliseEntry(data[j], parse).Success?
    decreases |data|
  {
    if |data| == 0 then Success([])
    else
      match NormaliseEntry(data[0], parse)
      case Failure(k) => Failure(k)
      case Success(head) =>
        match NormaliseAll(data[1..], parse)
        case Failure(k) =>
          assert forall j :: 1 <= j < |data| ==> data[j] == data[1..][j - 1];
          Failure(k)
        case Success(tail) => Success([head] + tail)
  }

  /** Rewriting an entry that was already rewritten changes nothing. */
  lemma NormaliseEntryIdempotent(e: Entry, parse: string -> Option<Json>)
    requires NormaliseEntry(e, parse).Success?
    ensures NormaliseEntry(NormaliseEntry(e, parse).value, parse) == NormaliseEntry(e, parse)
  {
  }

  /** Rewriting a whole request a second time changes nothing. */
  lemma NormaliseAllIdempotent(data: seq<Entry>, parse: string -> Option<Json>)
    requires NormaliseAll(data, parse).Success?
    ensures NormaliseAll(NormaliseAll(data, parse).value, parse) == NormaliseAll(data, parse)
  {
  }

  /** Text that parses to a list is stored as that list; text that does not parse, or
      parses to something other than a list, is stored as a one-element list holding the
      original text (not the empty string the failed parse leaves behind). */
  lemma ListTextExamples(parse: string -> Option<Json>)
    requires parse("[1,2,3]") == Some(JList([JNumber("1"), JNumber("2"), JNumber("3")]))
    requires parse("7") == Some(JNumber("7"))
    requires parse("a,b") == None
    ensures NormaliseEntry(ListEntry("[1,2,3]"), parse)
              == Success(ListEntry("[1,2,3]")[ValueKey := JList([JNumber("1"), JNumber("2"), JNumber("3")])])
    ensures NormaliseEntry(ListEntry("7"), parse) == Success(ListEntry("7")[ValueKey := JList([JString("7")])])
    ensures NormaliseEntry(ListEntry("a,b"), parse) == Success(ListEntry("a,b")[ValueKey := JList([JString("a,b")])])
  {
  }

  /** The entry {"type": "list", "value": text}. */
  function ListEntry(text: string): (e: Entry)
    ensures ListText(e)
  {
    map[TypeKey := JString("list"), ValueKey := JString(text)]
  }

  /** `binding_config` of each binding instance: None when the instance has no such
      attribute, otherwise the entries of its configuration template. */
  type ConfigOf = BindingId -> Option<seq<Entry>>

  /** What `get_active_binding_settings` returns: the template, or the empty object {}. */
  datatype SettingsView = Template(entries: seq<Entry>) | EmptyObject

  function GetActiveSettings(s: Server, configOf: ConfigOf): (r: SettingsView)
    ensures r.Template? <==> s.binding.Some? && configOf(s.binding.value).Some?
    ensures r.Template? ==> r.entries == configOf(s.binding.value).value
  {
    match s.binding
    case None => EmptyObject
    case Some(b) =>
      match configOf(b)
      case None => EmptyObject
      case Some(template) => Template(template)
  }

  /** What `set_active_binding_settings` does: refuses without a configurable binding,
      raises KeyError on an entry missing a key it reads, and otherwise applies the
      rewritten entries, saving the global configuration when auto-save is on. */
  datatype SetResult =
    | Rejected
    | Applied(entries: seq<Entry>, globalSaved: bool)
    | KeyMissing(key: string)
  {
    /** The returned dictionary; a raised KeyError returns none and propagates to the caller. */
    function StatusReply(): (r: Option<Reply>)
    {
      match this
      case Rejected => Some(Status(false))
      case Applied(_, _) => Some(Status(true))
      case KeyMissing(_) => None
    }
  }

  function SetActiveSettings(s: Server, configOf: ConfigOf, data: seq<Entry>,
                             parse: string -> Option<Json>): (r: SetResult)
    ensures r.Rejected? <==> s.binding.None? || configOf(s.binding.value).None?
    ensures r.Applied? ==> NormaliseAll(data, parse) == Success(r.entries)
    ensures r.Applied? ==> r.globalSaved == s.autoSave
    ensures r.KeyMissing? <==> !r.Rejected? && NormaliseAll(data, parse).Failure?
    ensures r.KeyMissing? ==> r.key == NormaliseAll(data, parse).error
  {
    if s.binding.None? || configOf(s.binding.value).None? then Rejected
    else
      match NormaliseAll(data, parse)
      case Failure(k) => KeyMissing(k)
      case Success(entries) => Applied(entries, s.autoSave)
  }

  /** Without a binding, or with one that has no configuration, reading gives {} and
      writing answers {"status": False}. */
  lemma NoConfigurableBinding(s: Server, configOf: ConfigOf, data: seq<Entry>,
                              parse: string -> Option<Json>)
    requires s.binding.None? || configOf(s.binding.value).None?
    ensures GetActiveSettings(s, configOf) == EmptyObject
    ensures SetActiveSettings(s, configOf, data, parse).StatusReply() == Some(Status(false))
  {
  }

  /** Writing back the entries a write applied applies the same entries again. */
  lemma WriteBackRewritten(s: Server, configOf: ConfigOf, data: seq<Entry>,
                           parse: string -> Option<Json>)
    requires SetActiveSettings(s, configOf, data, parse).Applied?
    ensures SetActiveSettings(s, configOf, SetActiveSettings(s, configOf, data, parse).entries, parse)
              == SetActiveSettings(s, configOf, data, parse)
  {
  }
}
