/** The local-storage layer of the assistant hook (src/hooks/useJarvis.ts):
    `loadFromStorage` and `saveToStorage`. Storage is a map from key to the
    stored string; `JSON.parse` is an abstract partial function given as a
    parameter (None when it throws), `JSON.stringify` an abstract total
    one. */
module Storage {
  import opened Seqs
  import opened Json

  const TodosKey: string := "jarvis_todos"
  const TopicsKey: string := "jarvis_topics"
  const ResumeKey: string := "jarvis_resume"
  const ProjectsKey: string := "jarvis_projects"
  const MessagesKey: string := "jarvis_messages"

  /** `{...msg, timestamp: new Date(msg.timestamp)}`; None when reading
      `msg.timestamp` or building the date throws. */
  function RehydrateMessage(msg: Json): Option<Json>
  {
    match Get(msg, "timestamp")
    case None => None
    case Some(ts) =>
      if !ConvertsToPrimitive(ts) then None
      else Some(JObj(Spread(msg)["timestamp" := JDate(ts)]))
  }

  /** `{...todo, createdAt: new Date(todo.createdAt), deadline: todo.deadline
      ? new Date(todo.deadline) : undefined}`; None when a read or a date
      throws. */
  function RehydrateTodo(todo: Json): Option<Json>
  {
    match Get(todo, "createdAt")
    case None => None
    case Some(created) =>
      if !ConvertsToPrimitive(created) then None
      else
        match Get(todo, "deadline")
        case None => None
        case Some(deadline) =>
          if Truthy(deadline) && !ConvertsToPrimitive(deadline) then None
          else
            Some(JObj(Spread(todo)["createdAt" := JDate(created)]
                                  ["deadline" := if Truthy(deadline) then JDate(deadline) else JUndefined]))
  }

  /** A stored message can be rehydrated: it is not `null` or `undefined`
      and its timestamp converts to a date. */
  predicate MessageRehydrates(msg: Json)
  {
    !(msg.JNull? || msg.JUndefined?) && ConvertsToPrimitive(OptGet(msg, "timestamp"))
  }

  /** A stored todo can be rehydrated: it is not `null` or `undefined`, its
      creation time converts to a date, and so does a truthy deadline. */
  predicate TodoRehydrates(todo: Json)
  {
    && !(todo.JNull? || todo.JUndefined?)
    && ConvertsToPrimitive(OptGet(todo, "createdAt"))
    && (Truthy(OptGet(todo, "deadline")) ==> ConvertsToPrimitive(OptGet(todo, "deadline")))
  }

  /** `items.map(f)` where `f` may throw: None as soon as one call throws. */
  function MapOrThrow(f: Json -> Option<Json>, items: seq<Json>): (r: Option<seq<Json>>)
    ensures r.Some? <==> forall i :: 0 <= i < |items| ==> f(items[i]).Some?
    ensures r.Some? ==> |r.value| == |items| && forall i :: 0 <= i < |items| ==> Some(r.value[i]) == f(items[i])
  {
    if items == [] then Some([])
    else
      match f(items[0])
      case None => None
      case Some(x) =>
        match MapOrThrow(f, items[1..])
        case None => None
        case Some(rest) => Some([x] + rest)
  }

  /** `loadFromStorage(key, defaultValue)`. */
  function LoadFromStorage(storage: map<string, string>, key: string, defaultValue: Json,
                           parse: string -> Option<Json>): Json
  {
    if key !in storage || storage[key] == "" then defaultValue
    else
      match parse(storage[key])
      case None => defaultValue
      case Some(parsed) =>
        if key == MessagesKey && parsed.JArr? then
          match MapOrThrow(RehydrateMessage, parsed.items)
          case None => defaultValue
          case Some(items) => JArr(items)
        else if key == TodosKey && parsed.JArr? then
          match MapOrThrow(RehydrateTodo, parsed.items)
          case None => defaultValue
          case Some(items) => JArr(items)
        else parsed
  }

  /** `saveToStorage(key, value)`: the write either lands or, when
      `setItem` throws (a full quota), is dropped silently. */
  function SaveToStorage(storage: map<string, string>, key: string, value: Json,
                         stringify: Json -> string, writeSucceeds: bool): (r: map<string, string>)
    ensures writeSucceeds ==> r == storage[key := stringify(value)]
    ensures !writeSucceeds ==> r == storage
  {
    if writeSucceeds then storage[key := stringify(value)] else storage
  }

  /** Loading yields the default on a missing or empty entry and on a parse
      error; for every key other than the message and todo keys it otherwise
      yields the parsed value verbatim. */
  lemma LoadCases(storage: map<string, string>, key: string, defaultValue: Json,
                  parse: string -> Option<Json>)
    ensures key !in storage || storage[key] == "" ==> LoadFromStorage(storage, key, defaultValue, parse) == defaultValue
    ensures key in storage && storage[key] != "" && parse(storage[key]).None? ==>
              LoadFromStorage(storage, key, defaultValue, parse) == defaultValue
    ensures key in storage && storage[key] != "" && parse(storage[key]).Some? && key != MessagesKey && key != TodosKey ==>
              LoadFromStorage(storage, key, defaultValue, parse) == parse(storage[key]).value
  {
  }

  /** A stored message list loads as the same number of messages, each with
      its `timestamp` turned into a date and every other field kept; one
      `null` entry, or one timestamp that cannot become a date, makes the
      whole load fall back to the default. */
  lemma LoadMessagesRehydrates(storage: map<string, string>, defaultValue: Json,
                               parse: string -> Option<Json>, items: seq<Json>)
    requires MessagesKey in storage && storage[MessagesKey] != ""
    requires parse(storage[MessagesKey]) == Some(JArr(items))
    ensures var r := LoadFromStorage(storage, MessagesKey, defaultValue, parse);
            if exists i :: 0 <= i < |items| && !MessageRehydrates(items[i]) then r == defaultValue
            else
              && r.JArr? && |r.items| == |items|
              && forall i :: 0 <= i < |items| ==>
                   && r.items[i].JObj?
                   && r.items[i].fields["timestamp"] == JDate(OptGet(items[i], "timestamp"))
                   && forall k :: k in Spread(items[i]) && k != "timestamp" ==> k in r.items[i].fields && r.items[i].fields[k] == Spread(items[i])[k]
  {
    var r := LoadFromStorage(storage, MessagesKey, defaultValue, parse);
    var mapped := MapOrThrow(RehydrateMessage, items);
    if forall i :: 0 <= i < |items| ==> MessageRehydrates(items[i]) {
      assert forall i :: 0 <= i < |items| ==> RehydrateMessage(items[i]).Some?;
      assert r == JArr(mapped.value);
      forall i | 0 <= i < |items|
        ensures r.items[i] == JObj(Spread(items[i])["timestamp" := JDate(OptGet(items[i], "timestamp"))])
      {
        assert Some(r.items[i]) == RehydrateMessage(items[i]);
      }
    } else {
      var i :| 0 <= i < |items| && !MessageRehydrates(items[i]);
      assert RehydrateMessage(items[i]).None?;
    }
  }

  /** A stored todo list loads as the same number of todos, each with its
      `createdAt` turned into a date and its `deadline` into a date when
      truthy and `undefined` otherwise; one `null` entry, or one date that
      cannot be built, makes the whole load fall back to the default. */
  lemma LoadTodosRehydrates(storage: map<string, string>, defaultValue: Json,
                            parse: string -> Option<Json>, items: seq<Json>)
    requires TodosKey in storage && storage[TodosKey] != ""
    requires parse(storage[TodosKey]) == Some(JArr(items))
    ensures var r := LoadFromStorage(storage, TodosKey, defaultValue, parse);
            if exists i :: 0 <= i < |items| && !TodoRehydrates(items[i]) then r == defaultValue
            else
              && r.JArr? && |r.items| == |items|
              && forall i :: 0 <= i < |items| ==>
                   && r.items[i].JObj?
                   && r.items[i].fields["createdAt"] == JDate(OptGet(items[i], "createdAt"))
                   && r.items[i].fields["deadline"] ==
                        (if Truthy(OptGet(items[i], "deadline")) then JDate(OptGet(items[i], "deadline")) else JUndefined)
                   && forall k :: k in Spread(items[i]) && k != "createdAt" && k != "deadline" ==>
                        k in r.items[i].fields && r.items[i].fields[k] == Spread(items[i])[k]
  {
    var r := LoadFromStorage(storage, TodosKey, defaultValue, parse);
    var mapped := MapOrThrow(RehydrateTodo, items);
    if forall i :: 0 <= i < |items| ==> TodoRehydrates(items[i]) {
      assert forall i :: 0 <= i < |items| ==> RehydrateTodo(items[i]).Some?;
      assert r == JArr(mapped.value);
      forall i | 0 <= i < |items|
        ensures Some(r.items[i]) == RehydrateTodo(items[i])
      {
      }
    } else {
      var i :| 0 <= i < |items| && !TodoRehydrates(items[i]);
      assert RehydrateTodo(items[i]).None?;
    }
  }

  /** Saving a value under a key without date fields and loading it back
      yields the value again, whenever parsing undoes stringifying. */
  lemma SaveThenLoad(storage: map<string, string>, key: string, v: Json, defaultValue: Json,
                     parse: string -> Option<Json>, stringify: Json -> string)
    requires key != MessagesKey && key != TodosKey
    requires stringify(v) != "" && parse(stringify(v)) == Some(v)
    ensures LoadFromStorage(SaveToStorage(storage, key, v, stringify, true), key, defaultValue, parse) == v
  {
  }
}
