/** The assistant hook (src/hooks/useJarvis.ts): the chat session state, the
    placeholder reply generator, and the reducers behind the todo, topic,
    resume and idea handlers. Clock readings (`Date.now()`) are parameters
    in milliseconds; ids are their decimal strings. */
module UseJarvis {
  import opened Seqs
  import opened JsText
  import opened TodoList
  import opened StudyAssistant
  import opened ResumeBuilder

  datatype JarvisState = Idle | Listening | Thinking | Speaking

  datatype Role = User | Assistant

  datatype Message = Message(id: string, role: Role, content: string, timestamp: nat)

  datatype IdeaLevel = Beginner | Intermediate | Advanced

  datatype ProjectIdea = ProjectIdea(id: string, title: string, description: string, difficulty: IdeaLevel,
                                     tags: seq<string>, codeSnippet: Option<string>)

  // ---------------------------------------------------------------------
  // The placeholder reply generator

  /** Which canned reply `generateAIResponse` gives. */
  datatype ReplyKind = Greeting | TaskHelp | StudyHelp | ResumeHelp | ProjectHelp | Fallback

  const GreetingReply: string := "Hello! I'm Jarvis, your personal AI assistant. I can help you with studying, managing tasks, building your resume, or generating project ideas. What would you like to work on today?"
  const TaskReply: string := "I can help you add a task. Please tell me what task you'd like to add, and I'll create it for you. You can also use the Tasks panel on the left to manage your to-do list directly."
  const StudyReply: string := "I'd be happy to help you study! You can use the Study panel to select a topic, or ask me to explain any concept. What subject would you like to focus on - Mathematics, Physics, or Computer Science?"
  const ResumeReply: string := "I can help you build your resume! Head to the Resume panel to fill in your details, and I can generate professional summaries and descriptions for you. What aspect of your resume would you like to work on?"
  const ProjectReply: string := "Looking for project ideas? I can suggest projects based on your skill level and interests. Check out the Projects panel and click 'Generate Ideas' for AI-powered suggestions with starter code!"
  const FallbackPrefix: string := "I understand you're asking about \""
  const FallbackSuffix: string := "\". This is a placeholder response - in the future, I'll be connected to an AI API to provide intelligent answers. For now, you can explore my features: Study Assistant, Task Manager, Resume Builder, and Project Ideas!"

  /** The keyword checks of `generateAIResponse`, in order, on the
      lower-cased message. */
  function Classify(message: string): ReplyKind
  {
    var lower := ToLower(message);
    if Includes(lower, "hello jarvis") || Includes(lower, "hi jarvis") then Greeting
    else if Includes(lower, "add task") || Includes(lower, "add todo") then TaskHelp
    else if Includes(lower, "study") || Includes(lower, "learn") || Includes(lower, "explain") then StudyHelp
    else if Includes(lower, "resume") || Includes(lower, "cv") then ResumeHelp
    else if Includes(lower, "project") || Includes(lower, "idea") then ProjectHelp
    else Fallback
  }

  /** The keywords that select each reply. */
  function Keywords(k: ReplyKind): seq<string>
  {
    match k
    case Greeting => ["hello jarvis", "hi jarvis"]
    case TaskHelp => ["add task", "add todo"]
    case StudyHelp => ["study", "learn", "explain"]
    case ResumeHelp => ["resume", "cv"]
    case ProjectHelp => ["project", "idea"]
    case Fallback => []
  }

  /** The replies in the order they are tried. */
  const ReplyPriority: seq<ReplyKind> := [Greeting, TaskHelp, StudyHelp, ResumeHelp, ProjectHelp]

  predicate Mentions(lower: string, k: ReplyKind)
  {
    exists i :: 0 <= i < |Keywords(k)| && Includes(lower, Keywords(k)[i])
  }

  /** Reference definition: the first reply in `kinds` one of whose
      keywords occurs, or the fallback when none does. */
  function FirstMentioned(kinds: seq<ReplyKind>, lower: string): (k: ReplyKind)
    ensures k == Fallback || k in kinds
  {
    if kinds == [] then Fallback
    else if Mentions(lower, kinds[0]) then kinds[0]
    else FirstMentioned(kinds[1..], lower)
  }

  /** The if-chain is the priority rule: the reply is that of the first
      keyword group, in the order greeting, task, study, resume, project,
      that the lower-cased message mentions. */
  lemma ClassifyByPriority(message: string)
    ensures Classify(message) == FirstMentioned(ReplyPriority, ToLower(message))
  {
    var lower := ToLower(message);
    assert Mentions(lower, Greeting) <==> Includes(lower, "hello jarvis") || Includes(lower, "hi jarvis") by {
      assert Keywords(Greeting)[0] == "hello jarvis" && Keywords(Greeting)[1] == "hi jarvis";
    }
    assert Mentions(lower, TaskHelp) <==> Includes(lower, "add task") || Includes(lower, "add todo") by {
      assert Keywords(TaskHelp)[0] == "add task" && Keywords(TaskHelp)[1] == "add todo";
    }
    assert Mentions(lower, StudyHelp) <==> Includes(lower, "study") || Includes(lower, "learn") || Includes(lower, "explain") by {
      assert Keywords(StudyHelp)[0] == "study" && Keywords(StudyHelp)[1] == "learn" && Keywords(StudyHelp)[2] == "explain";
    }
    assert Mentions(lower, ResumeHelp) <==> Includes(lower, "resume") || Includes(lower, "cv") by {
      assert Keywords(ResumeHelp)[0] == "resume" && Keywords(ResumeHelp)[1] == "cv";
    }
    assert Mentions(lower, ProjectHelp) <==> Includes(lower, "project") || Includes(lower, "idea") by {
      assert Keywords(ProjectHelp)[0] == "project" && Keywords(ProjectHelp)[1] == "idea";
    }
    var p := ReplyPriority;
    assert p[1..] == [TaskHelp, StudyHelp, ResumeHelp, ProjectHelp];
    assert p[2..] == p[1..][1..] == [StudyHelp, ResumeHelp, ProjectHelp];
    assert p[3..] == p[2..][1..] == [ResumeHelp, ProjectHelp];
    assert p[4..] == p[3..][1..] == [ProjectHelp];
    assert p[4..][1..] == [];
    assert FirstMentioned(p[4..], lower) == if Mentions(lower, ProjectHelp) then ProjectHelp else Fallback;
    assert FirstMentioned(p[3..], lower) == if Mentions(lower, ResumeHelp) then ResumeHelp else FirstMentioned(p[4..], lower);
    assert FirstMentioned(p[2..], lower) == if Mentions(lower, StudyHelp) then StudyHelp else FirstMentioned(p[3..], lower);
    assert FirstMentioned(p[1..], lower) == if Mentions(lower, TaskHelp) then TaskHelp else FirstMentioned(p[2..], lower);
    assert FirstMentioned(p, lower) == if Mentions(lower, Greeting) then Greeting else FirstMentioned(p[1..], lower);
  }

  /** The classification does not depend on letter case. */
  lemma ClassifyIgnoresCase(message: string)
    ensures Classify(ToLower(message)) == Classify(message)
  {
    ToLowerIdempotent(message);
  }

  /** The quoted part of the fallback reply: `message.slice(0, 50)`, with
      "..." appended exactly when the message is longer than 50. */
  function Quote(message: string): (q: string)
    ensures |message| <= 50 ==> q == message
    ensures |message| > 50 ==> |q| == 53 && q[..50] == message[..50] && q[50..] == "..."
  {
    message[..if |message| < 50 then |message| else 50] + (if |message| > 50 then "..." else "")
  }

  /** `generateAIResponse(message)`, without its simulated delay. */
  function GenerateAIResponse(message: string): (r: string)
    ensures Classify(message) == Fallback ==> r == FallbackPrefix + Quote(message) + FallbackSuffix
    ensures Classify(message) == Greeting ==> r == GreetingReply
  {
    match Classify(message)
    case Greeting => GreetingReply
    case TaskHelp => TaskReply
    case StudyHelp => StudyReply
    case ResumeHelp => ResumeReply
    case ProjectHelp => ProjectReply
    case Fallback => FallbackPrefix + Quote(message) + FallbackSuffix
  }

  // ---------------------------------------------------------------------
  // Default slot values

  const DefaultTopics: seq<Topic> := [
    Topic("1", "Linear Algebra", "math", NotStarted, 0),
    Topic("2", "Calculus", "math", InProgress, 45),
    Topic("3", "Probability", "math", Completed, 100),
    Topic("4", "Mechanics", "physics", NotStarted, 0),
    Topic("5", "Thermodynamics", "physics", InProgress, 30),
    Topic("6", "Data Structures", "cs", Completed, 100),
    Topic("7", "Algorithms", "cs", InProgress, 60),
    Topic("8", "Operating Systems", "cs", NotStarted, 0)
  ]

  const DefaultResume: ResumeData := ResumeData("", "", "", "", [], [], [])

  const DefaultProjectIdeas: seq<ProjectIdea> := [
    ProjectIdea("1", "Personal Portfolio Website",
                "Create a responsive portfolio to showcase your projects and skills. Perfect for beginners learning HTML, CSS, and JavaScript.",
                Beginner, ["HTML", "CSS", "JavaScript", "Portfolio"],
                Some("<!DOCTYPE html>\n<html lang=\"en\">\n<head>\n  <meta charset=\"UTF-8\">\n  <title>My Portfolio</title>\n</head>\n<body>\n  <header>\n    <h1>Your Name</h1>\n    <nav>\n      <a href=\"#projects\">Projects</a>\n      <a href=\"#contact\">Contact</a>\n    </nav>\n  </header>\n</body>\n</html>")),
    ProjectIdea("2", "Task Management API",
                "Build a RESTful API for managing tasks with authentication, CRUD operations, and database integration.",
                Intermediate, ["Node.js", "Express", "MongoDB", "REST API"],
                Some("const express = require('express');\nconst app = express();\n\napp.use(express.json());\n\nlet tasks = [];\n\napp.get('/api/tasks', (req, res) => {\n  res.json(tasks);\n});\n\napp.post('/api/tasks', (req, res) => {\n  const task = { id: Date.now(), ...req.body };\n  tasks.push(task);\n  res.status(201).json(task);\n});\n\napp.listen(3000);"))
  ]

  const ChatAppSnippet: string := "import { useState, useEffect } from 'react';\n\nfunction ChatApp() {\n  const [messages, setMessages] = useState([]);\n  const [input, setInput] = useState('');\n\n  const sendMessage = async () => {\n    // Add your message\n    setMessages([...messages, { role: 'user', content: input }]);\n    \n    // Get AI response (placeholder)\n    const response = await fetch('/api/chat', {\n      method: 'POST',\n      body: JSON.stringify({ message: input })\n    });\n    \n    const data = await response.json();\n    setMessages(prev => [...prev, { role: 'ai', content: data.reply }]);\n  };\n\n  return (\n    <div className=\"chat-container\">\n      {messages.map((msg, i) => (\n        <div key={i} className={msg.role}>{msg.content}</div>\n      ))}\n      <input value={input} onChange={e => setInput(e.target.value)} />\n      <button onClick={sendMessage}>Send</button>\n    </div>\n  );\n}"

  /** The idea `handleGenerateIdeas` adds, stamped with the clock reading. */
  function GeneratedIdea(now: nat): (idea: ProjectIdea)
    ensures idea.id == NatToString(now) && idea.difficulty == Advanced
  {
    ProjectIdea(NatToString(now), "AI Chat Application",
                "Build a real-time chat application with AI-powered responses using WebSockets and a language model API.",
                Advanced, ["React", "WebSocket", "AI", "Node.js"],
                Some(ChatAppSnippet))
  }

  // ---------------------------------------------------------------------
  // Reducers

  /** The todo `handleAddTodo` creates. */
  function NewTodo(text: string, now: nat, priority: Priority): Todo
  {
    Todo(NatToString(now), text, false, priority, now, None)
  }

  /** `handleAddTodo`: the new, unfinished todo goes in front of the
      others. */
  function AddTodo(prev: seq<Todo>, text: string, now: nat, priority: Priority := Medium): (r: seq<Todo>)
    ensures |r| == |prev| + 1 && r[1..] == prev
    ensures r[0].text == text && !r[0].completed && r[0].priority == priority
    ensures r[0].id == NatToString(now) && r[0].createdAt == now && r[0].deadline == None
  {
    [NewTodo(text, now, priority)] + prev
  }

  /** `handleToggleTodo`: flip `completed` on the todos with that id. */
  function ToggleTodo(prev: seq<Todo>, id: string): (r: seq<Todo>)
    ensures |r| == |prev|
    ensures forall i :: 0 <= i < |prev| ==> r[i].(completed := prev[i].completed) == prev[i]
    ensures forall i :: 0 <= i < |prev| ==> (r[i].completed != prev[i].completed <==> prev[i].id == id)
  {
    seq(|prev|, i requires 0 <= i < |prev| =>
      if prev[i].id == id then prev[i].(completed := !prev[i].completed) else prev[i])
  }

  /** Toggling twice gives back the original list. */
  lemma ToggleTodoTwice(prev: seq<Todo>, id: string)
    ensures ToggleTodo(ToggleTodo(prev, id), id) == prev
  {
    var once := ToggleTodo(prev, id);
    var twice := ToggleTodo(once, id);
    forall i | 0 <= i < |prev| ensures twice[i] == prev[i] {
      assert once[i].id == prev[i].id by {
        assert once[i].(completed := prev[i].completed) == prev[i];
      }
      assert twice[i].(completed := once[i].completed) == once[i];
    }
  }

  function HasOtherId(id: string): Todo -> bool
  {
    (t: Todo) => t.id != id
  }

  /** `handleDeleteTodo`: drop every todo with that id, keeping the others
      in order; an absent id changes nothing. */
  function DeleteTodo(prev: seq<Todo>, id: string): (r: seq<Todo>)
    ensures forall t :: t in r <==> t in prev && t.id != id
    ensures forall t: Todo :: t.id != id ==> multiset(r)[t] == multiset(prev)[t]
    ensures IsSubsequence(r, prev)
    ensures (forall i :: 0 <= i < |prev| ==> prev[i].id != id) ==> r == prev
  {
    FilterIsSubsequence(HasOtherId(id), prev);
    if forall i :: 0 <= i < |prev| ==> prev[i].id != id then
      FilterAll(HasOtherId(id), prev);
      Filter(HasOtherId(id), prev)
    else Filter(HasOtherId(id), prev)
  }

  /** Deleting a todo just added under a fresh id gives back the list
      before the add. */
  lemma DeleteUndoesAdd(prev: seq<Todo>, text: string, now: nat, priority: Priority)
    requires forall i :: 0 <= i < |prev| ==> prev[i].id != NatToString(now)
    ensures DeleteTodo(AddTodo(prev, text, now, priority), NatToString(now)) == prev
  {
    var added := AddTodo(prev, text, now, priority);
    var id := NatToString(now);
    assert added == [added[0]] + prev;
    assert Filter(HasOtherId(id), added) == Filter(HasOtherId(id), prev);
    FilterAll(HasOtherId(id), prev);
  }

  /** The to-do scenario: add "Buy milk" with high priority to an empty
      list, toggle it, then delete it. */
  lemma TodoScenario(now: nat)
    ensures var added := AddTodo([], "Buy milk", now, High);
            && |added| == 1 && added[0].text == "Buy milk" && added[0].priority == High && !added[0].completed
            && ToggleTodo(added, added[0].id)[0].completed
            && DeleteTodo(ToggleTodo(added, added[0].id), added[0].id) == []
  {
    var added := AddTodo([], "Buy milk", now, High);
    var toggled := ToggleTodo(added, added[0].id);
    assert toggled[0].id == added[0].id by {
      assert toggled[0].(completed := added[0].completed) == added[0];
    }
  }

  /** No two todos share an id. */
  predicate UniqueTodoIds(todos: seq<Todo>)
  {
    forall i, j :: 0 <= i < j < |todos| ==> todos[i].id != todos[j].id
  }

  /** Ids stay unique when a todo is added at a clock reading whose id no
      todo has yet, and whenever a todo is toggled. */
  lemma TodoIdsStayUnique(prev: seq<Todo>, text: string, now: nat, priority: Priority, id: string)
    requires UniqueTodoIds(prev)
    ensures (forall i :: 0 <= i < |prev| ==> prev[i].id != NatToString(now)) ==>
              UniqueTodoIds(AddTodo(prev, text, now, priority))
    ensures UniqueTodoIds(ToggleTodo(prev, id))
  {
    var toggled := ToggleTodo(prev, id);
    forall i | 0 <= i < |prev| ensures toggled[i].id == prev[i].id {
      assert toggled[i].(completed := prev[i].completed) == prev[i];
    }
    if forall i :: 0 <= i < |prev| ==> prev[i].id != NatToString(now) {
      var added := AddTodo(prev, text, now, priority);
      forall i, j | 0 <= i < j < |added| ensures added[i].id != added[j].id {
        assert added[j] == prev[j - 1];
        if i > 0 {
          assert added[i] == prev[i - 1];
        }
      }
    }
  }

  /** `handleSelectTopic`'s update: a topic that was not started moves every
      topic with its id to in progress at 10%; any other topic leaves the
      list unchanged. */
  function SelectTopic(prev: seq<Topic>, topic: Topic): (r: seq<Topic>)
    ensures |r| == |prev|
    ensures topic.status != NotStarted ==> r == prev
    ensures topic.status == NotStarted ==>
              forall i :: 0 <= i < |prev| ==>
                && (prev[i].id == topic.id ==> r[i].status == InProgress && r[i].progress == 10)
                && r[i].(status := prev[i].status, progress := prev[i].progress) == prev[i]
                && (prev[i].id != topic.id ==> r[i] == prev[i])
  {
    if topic.status == NotStarted then
      seq(|prev|, i requires 0 <= i < |prev| =>
        if prev[i].id == topic.id then prev[i].(status := InProgress, progress := 10) else prev[i])
    else prev
  }

  predicate ProgressInRange(topics: seq<Topic>)
  {
    forall i :: 0 <= i < |topics| ==> 0 <= topics[i].progress <= 100
  }

  /** Selecting a topic keeps every progress within 0 to 100, and selecting
      the same topic again changes nothing more. */
  lemma SelectTopicLaws(prev: seq<Topic>, topic: Topic)
    ensures ProgressInRange(prev) ==> ProgressInRange(SelectTopic(prev, topic))
    ensures SelectTopic(SelectTopic(prev, topic), topic) == SelectTopic(prev, topic)
  {
    var once := SelectTopic(prev, topic);
    var twice := SelectTopic(once, topic);
    if topic.status == NotStarted {
      forall i | 0 <= i < |prev| ensures twice[i] == once[i] {
        assert once[i].id == prev[i].id by {
          assert once[i].(status := prev[i].status, progress := prev[i].progress) == prev[i];
        }
      }
    }
  }

  function UserMessage(text: string, now: nat): Message
  {
    Message(NatToString(now), User, text, now)
  }

  /** The reply message; its id is one more than the clock reading. */
  function AssistantMessage(text: string, now: nat): Message
  {
    Message(NatToString(now + 1), Assistant, GenerateAIResponse(text), now)
  }

  /** Within one turn the user and reply messages have distinct ids as long
      as the clock does not go backwards between them. */
  lemma TurnIdsDistinct(text: string, sentAt: nat, repliedAt: nat)
    requires sentAt <= repliedAt
    ensures UserMessage(text, sentAt).id != AssistantMessage(text, repliedAt).id
  {
    if NatToString(sentAt) == NatToString(repliedAt + 1) {
      NatToStringInjective(sentAt, repliedAt + 1);
    }
  }

  /** Message ids are unique only as long as clock readings differ enough:
      a user message sent one millisecond after the previous reply's clock
      reading takes that reply's id. */
  lemma NextTurnCanReuseReplyId(reply: string, next: string, t: nat)
    ensures AssistantMessage(reply, t).id == UserMessage(next, t + 1).id
  {
  }

  // ---------------------------------------------------------------------
  // The hook's state

  /** The state `useJarvis` holds. Persisting to storage after each update
      has no effect on this state and is modelled separately in Storage. */
  class Session {
    var jarvisState: JarvisState
    var isListening: bool
    var messages: seq<Message>
    var todos: seq<Todo>
    var topics: seq<Topic>
    var resume: ResumeData
    var projectIdeas: seq<ProjectIdea>
    var isGeneratingIdeas: bool

    /** The initial state, from the values loaded for each slot. */
    constructor (messages0: seq<Message>, todos0: seq<Todo>, topics0: seq<Topic>,
                 resume0: ResumeData, ideas0: seq<ProjectIdea>)
      ensures jarvisState == Idle && !isListening && !isGeneratingIdeas
      ensures messages == messages0 && todos == todos0 && topics == topics0
      ensures resume == resume0 && projectIdeas == ideas0
    {
      jarvisState := Idle;
      isListening := false;
      messages := messages0;
      todos := todos0;
      topics := topics0;
      resume := resume0;
      projectIdeas := ideas0;
      isGeneratingIdeas := false;
    }

    /** `handleSendMessage` up to its first await: append the user message,
        start thinking, stop listening. */
    method BeginSend(text: string, now: nat)
      modifies this`messages, this`jarvisState, this`isListening
      ensures messages == old(messages) + [UserMessage(text, now)]
      ensures jarvisState == Thinking && !isListening
    {
      messages := messages + [UserMessage(text, now)];
      jarvisState := Thinking;
      isListening := false;
    }

    /** After the reply is generated: append it and start speaking. */
    method DeliverReply(text: string, now: nat)
      modifies this`messages, this`jarvisState
      ensures messages == old(messages) + [AssistantMessage(text, now)]
      ensures jarvisState == Speaking
    {
      messages := messages + [AssistantMessage(text, now)];
      jarvisState := Speaking;
    }

    /** The `finally` block, after speaking: back to idle. */
    method FinishSend()
      modifies this`jarvisState
      ensures jarvisState == Idle
    {
      jarvisState := Idle;
    }

    /** The whole of `handleSendMessage`: exactly one user message, then
        exactly one reply, appended at the end; the state passes through
        thinking and speaking and ends idle. */
    method HandleSendMessage(text: string, sentAt: nat, repliedAt: nat)
      modifies this`messages, this`jarvisState, this`isListening
      ensures messages == old(messages) + [UserMessage(text, sentAt), AssistantMessage(text, repliedAt)]
      ensures |messages| == |old(messages)| + 2
      ensures messages[|messages| - 2].role == User && messages[|messages| - 2].content == text
      ensures messages[|messages| - 1].role == Assistant && messages[|messages| - 1].content == GenerateAIResponse(text)
      ensures jarvisState == Idle && !isListening
    {
      BeginSend(text, sentAt);
      assert jarvisState == Thinking;
      DeliverReply(text, repliedAt);
      assert jarvisState == Speaking;
      FinishSend();
    }

    /** `handleAddTodo`. */
    method HandleAddTodo(text: string, now: nat, priority: Priority := Medium)
      modifies this`todos
      ensures todos == AddTodo(old(todos), text, now, priority)
    {
      todos := AddTodo(todos, text, now, priority);
    }

    /** `handleToggleTodo`. */
    method HandleToggleTodo(id: string)
      modifies this`todos
      ensures todos == ToggleTodo(old(todos), id)
    {
      todos := ToggleTodo(todos, id);
    }

    /** `handleDeleteTodo`. */
    method HandleDeleteTodo(id: string)
      modifies this`todos
      ensures todos == DeleteTodo(old(todos), id)
    {
      todos := DeleteTodo(todos, id);
    }

    /** `handleSelectTopic`: update the topic list, then send the study
        request as a chat message. */
    method HandleSelectTopic(topic: Topic, sentAt: nat, repliedAt: nat)
      modifies this`topics, this`messages, this`jarvisState, this`isListening
      ensures topics == SelectTopic(old(topics), topic)
      ensures messages == old(messages) + [UserMessage("I want to study " + topic.name, sentAt),
                                           AssistantMessage("I want to study " + topic.name, repliedAt)]
      ensures jarvisState == Idle && !isListening
    {
      topics := SelectTopic(topics, topic);
      HandleSendMessage("I want to study " + topic.name, sentAt, repliedAt);
    }

    /** `handleStartExam`: a fixed chat message. */
    method HandleStartExam(sentAt: nat, repliedAt: nat)
      modifies this`messages, this`jarvisState, this`isListening
      ensures var text := "Start an exam to test my knowledge on the topics I've been studying";
              messages == old(messages) + [UserMessage(text, sentAt), AssistantMessage(text, repliedAt)]
      ensures jarvisState == Idle && !isListening
    {
      HandleSendMessage("Start an exam to test my knowledge on the topics I've been studying", sentAt, repliedAt);
    }

    /** `handleUpdateResume`: the resume is replaced as a whole. */
    method HandleUpdateResume(data: ResumeData)
      modifies this`resume
      ensures resume == data
    {
      resume := data;
    }

    /** `handleGenerateResumeContent`: a chat message naming the section. */
    method HandleGenerateResumeContent(section: string, sentAt: nat, repliedAt: nat)
      modifies this`messages, this`jarvisState, this`isListening
      ensures var text := "Generate content for my resume " + section + " section";
              messages == old(messages) + [UserMessage(text, sentAt), AssistantMessage(text, repliedAt)]
      ensures jarvisState == Idle && !isListening
    {
      HandleSendMessage("Generate content for my resume " + section + " section", sentAt, repliedAt);
    }

    /** `handleGenerateIdeas` before its delay: raise the busy flag. */
    method BeginGenerateIdeas()
      modifies this`isGeneratingIdeas
      ensures isGeneratingIdeas
    {
      isGeneratingIdeas := true;
    }

    /** `handleGenerateIdeas` after its delay: prepend the new idea, keep
        every existing one, and lower the busy flag. */
    method FinishGenerateIdeas(now: nat)
      modifies this`projectIdeas, this`isGeneratingIdeas
      ensures projectIdeas == [GeneratedIdea(now)] + old(projectIdeas)
      ensures !isGeneratingIdeas
    {
      projectIdeas := [GeneratedIdea(now)] + projectIdeas;
      isGeneratingIdeas := false;
    }

    /** `handleSetIsListening`: listening always wins; stopping only returns
        to idle from the listening state and leaves any other state. */
    method HandleSetIsListening(listening: bool)
      modifies this`isListening, this`jarvisState
      ensures isListening == listening
      ensures listening ==> jarvisState == Listening
      ensures !listening && old(jarvisState) == Listening ==> jarvisState == Idle
      ensures !listening && old(jarvisState) != Listening ==> jarvisState == old(jarvisState)
    {
      isListening := listening;
      if listening {
        jarvisState := Listening;
      } else if jarvisState == Listening {
        jarvisState := Idle;
      }
    }
  }
}
