/** The task panel (src/components/jarvis/TodoList.tsx): the todo record,
    the active/completed split the panel shows, and the submit guard of its
    input form. */
module TodoList {
  import opened Seqs
  import opened JsText

  datatype Priority = Low | Medium | High

  /** A task. `createdAt` and `deadline` are clock readings in milliseconds. */
  datatype Todo = Todo(id: string, text: string, completed: bool, priority: Priority,
                       createdAt: nat, deadline: Option<nat>)

  predicate IsActive(t: Todo) { !t.completed }

  predicate IsDone(t: Todo) { t.completed }

  /** `todos.filter((t) => !t.completed)`. */
  function ActiveTodos(todos: seq<Todo>): seq<Todo>
  {
    Filter(IsActive, todos)
  }

  /** `todos.filter((t) => t.completed)`. */
  function CompletedTodos(todos: seq<Todo>): seq<Todo>
  {
    Filter(IsDone, todos)
  }

  /** The two lists split the todos: the active list holds exactly the
      unfinished ones and the completed list exactly the finished ones, both
      in their original order, and the counts the header shows add up to the
      number of todos. */
  lemma TodoPartition(todos: seq<Todo>)
    ensures |ActiveTodos(todos)| + |CompletedTodos(todos)| == |todos|
    ensures forall t :: t in ActiveTodos(todos) <==> t in todos && !t.completed
    ensures forall t :: t in CompletedTodos(todos) <==> t in todos && t.completed
    ensures forall t :: multiset(ActiveTodos(todos))[t] + multiset(CompletedTodos(todos))[t] == multiset(todos)[t]
    ensures IsSubsequence(ActiveTodos(todos), todos) && IsSubsequence(CompletedTodos(todos), todos)
  {
    FilterPartition(IsActive, IsDone, todos);
    FilterIsSubsequence(IsActive, todos);
    FilterIsSubsequence(IsDone, todos);
  }

  /** What a submit of the form does: the new content of the input field and
      the text and priority handed to `onAddTodo`, if any. */
  datatype SubmitOutcome = SubmitOutcome(input: string, added: Option<(string, Priority)>)

  /** `handleSubmit`: blank input adds nothing and keeps the field; any other
      input adds its trimmed text with priority medium and clears the
      field. */
  function HandleSubmit(input: string): (r: SubmitOutcome)
    ensures AllSpace(input) ==> r == SubmitOutcome(input, None)
    ensures !AllSpace(input) ==> r.input == "" && r.added == Some((Trim(input), Medium))
    ensures r.added.Some? ==> IsTrimOf(r.added.value.0, input) && r.added.value.0 != ""
  {
    TrimEmptyIffBlank(input);
    TrimSpec(input);
    if Trim(input) != "" then SubmitOutcome("", Some((Trim(input), Medium)))
    else SubmitOutcome(input, None)
  }
}
