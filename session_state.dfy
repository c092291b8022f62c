/**
 The per-browser-session state of the chat page (`st.session_state`) and the
 handlers that change it. Streamlit re-runs the whole script after every
 interaction; each handler below is the part of one run that changes state:
 the initialisation blocks at the top of the run, the two reset buttons, the
 Submit button, and the dispatch on the action the language model picks. The
 model calls are oracle inputs: the first call's outcome is an `Action`, the
 summary call's outcome an `Option<string>`.
 */
module SessionState {
  import opened Wrappers
  import opened KnowledgeGraph
  import Answer

  datatype Role = System | Assistant | User

  /**
   Message content. The fixed prompt texts are left symbolic, and so is the
   `str.format` rendering of the knowledge graph: the second system message
   carries the graph it was rendered from.
   */
  datatype Content =
    | Text(text: string)
    | Instructions           // system_message1's prose
    | GraphSnapshot(graph: Graph)  // system_message2, formatted with the graph
    | SummaryRequest         // the summarise prompt stop_processing appends

  datatype Message = Message(role: Role, content: Content)

  /** What the first model call came back with, after `json.loads` of its arguments. */
  datatype Action =
    | AskUser
    | AskForFollowup(question: Option<string>, options: Option<seq<string>>)
    | StopProcessing(pieces: seq<Piece>)  // a missing knowledge_pieces is []
    | UnknownName                        // a tool name matching no branch, or no tool call
    | CallFailed                         // the call, json.loads or a .get raised

  /** The keys of `st.session_state` this page uses. */
  datatype Field =
    | Messages | WaitingForInput | CurrentQuestion | ConversationEnded | FollowUpOptions | KnowledgeGraphKey

  const AllFields: set<Field> :=
    {Messages, WaitingForInput, CurrentQuestion, ConversationEnded, FollowUpOptions, KnowledgeGraphKey}

  const DefaultQuestion := "What can I help with today?"
  const SummaryError := "Error occurred while processing the question."

  const SystemMessage1 := Message(System, Instructions)

  function SystemMessage2(graph: Graph): Message {
    Message(System, GraphSnapshot(graph))
  }

  /** The transcript a new conversation starts with. */
  function FreshTranscript(graph: Graph): seq<Message> {
    [SystemMessage1, SystemMessage2(graph)]
  }

  /** The transcript starts with the instructions, then a knowledge-graph snapshot. */
  predicate TranscriptWellFormed(m: seq<Message>) {
    |m| >= 2 && m[0] == SystemMessage1 && m[1].role == System && m[1].content.GraphSnapshot?
  }

  /** The text `stop_processing` returns: the rendered summary, or a fixed error string. */
  function FinalQuestion(summary: Option<string>): string {
    summary.GetOr(SummaryError)
  }

  class Session {
    var messages: seq<Message>
    var waitingForInput: bool
    var currentQuestion: string
    var conversationEnded: bool
    var followUpOptions: Option<seq<string>>
    var knowledgeGraph: Graph
    /** The keys stored so far; the value of a field whose key is absent is meaningless. */
    var present: set<Field>

    /**
     The reachable states: the store is empty, holds only the knowledge graph
     (line 10 ran), or holds every key (lines 229-242 ran). Then the transcript
     is well formed, the conversation is never both ended and waiting for input,
     and options are only kept while waiting for input.
     */
    ghost predicate Valid()
      reads this
    {
      && (present == {} || present == {KnowledgeGraphKey} || present == AllFields)
      && (Messages in present ==> TranscriptWellFormed(messages))
      && !(conversationEnded && waitingForInput)
      && (!waitingForInput ==> followUpOptions == None)
    }

    ghost predicate Initialised()
      reads this
    {
      present == AllFields
    }

    /** A new browser session: nothing is stored yet. */
    constructor ()
      ensures Valid() && present == {}
    {
      messages, waitingForInput, currentQuestion := [], false, "";
      conversationEnded, followUpOptions, knowledgeGraph := false, None, map[];
      present := {};
    }

    /** The empty knowledge graph is stored unless one is already there (main.py:9-10). */
    method InitialiseGraphIfAbsent()
      requires Valid()
      modifies this
      ensures Valid()
      ensures present == old(present) + {KnowledgeGraphKey}
      ensures knowledgeGraph == if KnowledgeGraphKey in old(present) then old(knowledgeGraph) else map[]
      ensures messages == old(messages) && waitingForInput == old(waitingForInput)
      ensures currentQuestion == old(currentQuestion) && conversationEnded == old(conversationEnded)
      ensures followUpOptions == old(followUpOptions)
    {
      if KnowledgeGraphKey !in present {
        knowledgeGraph := map[];
        present := present + {KnowledgeGraphKey};
      }
    }

    /**
     Each missing key gets its default; a key already stored keeps its value
     (main.py:229-242). A missing transcript is started from the current graph.
     */
    method InitialiseIfAbsent()
      requires Valid() && KnowledgeGraphKey in present
      modifies this
      ensures Valid() && Initialised()
      ensures messages == if Messages in old(present) then old(messages) else FreshTranscript(old(knowledgeGraph))
      ensures waitingForInput == (WaitingForInput in old(present) && old(waitingForInput))
      ensures currentQuestion == if CurrentQuestion in old(present) then old(currentQuestion) else DefaultQuestion
      ensures conversationEnded == (ConversationEnded in old(present) && old(conversationEnded))
      ensures followUpOptions == if FollowUpOptions in old(present) then old(followUpOptions) else None
      ensures knowledgeGraph == old(knowledgeGraph)
    {
      if Messages !in present {
        messages := [SystemMessage1];
        messages := messages + [SystemMessage2(knowledgeGraph)];
        present := present + {Messages};
      }
      if WaitingForInput !in present {
        waitingForInput := false;
        present := present + {WaitingForInput};
      }
      if CurrentQuestion !in present {
        currentQuestion := DefaultQuestion;
        present := present + {CurrentQuestion};
      }
      if ConversationEnded !in present {
        conversationEnded := false;
        present := present + {ConversationEnded};
      }
      if FollowUpOptions !in present {
        followUpOptions := None;
        present := present + {FollowUpOptions};
      }
    }

    /**
     The "Reset Knowledge Graph" button empties the graph and nothing else; the
     snapshot already in the transcript is not re-rendered (main.py:14-15).
     */
    method ResetKnowledgeGraph()
      requires Valid()
      modifies this
      ensures Valid()
      ensures knowledgeGraph == map[] && present == old(present) + {KnowledgeGraphKey}
      ensures messages == old(messages) && waitingForInput == old(waitingForInput)
      ensures currentQuestion == old(currentQuestion) && conversationEnded == old(conversationEnded)
      ensures followUpOptions == old(followUpOptions)
    {
      knowledgeGraph := map[];
      present := present + {KnowledgeGraphKey};
    }

    /**
     "Start New Conversation": the transcript goes back to the two system
     entries, the second rendered from the current graph; both flags are
     cleared and the question is the default. The graph is kept (main.py:18-26).
     The button that calls it is only shown once the conversation has ended
     (main.py:248-252).
     */
    method ResetConversation()
      requires Valid() && Initialised() && conversationEnded
      modifies this
      ensures Valid() && Initialised()
      ensures messages == FreshTranscript(old(knowledgeGraph))
      ensures !waitingForInput && !conversationEnded && currentQuestion == DefaultQuestion
      ensures knowledgeGraph == old(knowledgeGraph) && followUpOptions == old(followUpOptions)
    {
      messages := [SystemMessage1];
      messages := messages + [SystemMessage2(knowledgeGraph)];
      waitingForInput := false;
      currentQuestion := DefaultQuestion;
      conversationEnded := false;
    }

    /**
     The Submit button while waiting for input: the pending question and the
     answer built from the widgets are appended, in that order; waiting is
     cleared and the options dropped (main.py:254-265). The button is only
     shown while waiting for input, and the radio button only returns one of
     its entries (main.py:218-221).
     */
    method Submit(choice: string, freeText: string)
      requires Valid() && Initialised() && waitingForInput
      requires Answer.Offered(followUpOptions) ==> choice in Answer.RadioEntries(followUpOptions.value)
      modifies this
      ensures Valid() && Initialised()
      ensures messages == old(messages) + [
        Message(Assistant, Text(old(currentQuestion))),
        Message(User, Text(Answer.Select(old(followUpOptions), choice, freeText)))]
      ensures !waitingForInput && followUpOptions == None
      ensures currentQuestion == old(currentQuestion) && conversationEnded == old(conversationEnded)
      ensures knowledgeGraph == old(knowledgeGraph)
    {
      var userInput := Answer.Select(followUpOptions, choice, freeText);
      messages := messages + [Message(Assistant, Text(currentQuestion))];
      messages := messages + [Message(User, Text(userInput))];
      waitingForInput := false;
      followUpOptions := None;
    }

    /**
     `stop_processing` on the session's own transcript: appends the summarise
     prompt, merges the knowledge pieces in place, and returns the summary or,
     if that call failed, the fixed error text (main.py:184-212).
     */
    method StopProcessing(pieces: seq<Piece>, summary: Option<string>) returns (finalQuestion: string)
      requires Valid() && Initialised()
      modifies this
      ensures Valid() && Initialised()
      ensures messages == old(messages) + [Message(User, SummaryRequest)]
      ensures knowledgeGraph == Merged(old(knowledgeGraph), pieces)
      ensures finalQuestion == (if summary.Some? then summary.value else SummaryError)
      ensures waitingForInput == old(waitingForInput) && conversationEnded == old(conversationEnded)
      ensures currentQuestion == old(currentQuestion) && followUpOptions == old(followUpOptions)
    {
      messages := messages + [Message(User, SummaryRequest)];
      var i := 0;
      while i < |pieces| && WellFormed(pieces[i])
        modifies this`knowledgeGraph
        invariant 0 <= i <= |pieces|
        invariant Merged(old(knowledgeGraph), pieces) == Merged(knowledgeGraph, pieces[i..])
      {
        assert pieces[i..][1..] == pieces[i + 1..];
        knowledgeGraph := knowledgeGraph[pieces[i].jargon.value := pieces[i].value.value];
        i := i + 1;
      }
      finalQuestion := FinalQuestion(summary);
    }

    /**
     One run with neither flag set: apply the action the model picked
     (main.py:266-306). Stopping ends the conversation with the final question
     appended; a follow-up or a first question waits for input; an unknown name
     or a failed call changes nothing.
     */
    method Dispatch(action: Action, summary: Option<string>)
      requires Valid() && Initialised()
      requires !conversationEnded && !waitingForInput
      modifies this
      ensures Valid() && Initialised()
      ensures action.StopProcessing? ==>
        && messages == old(messages) + [Message(User, SummaryRequest), Message(Assistant, Text(FinalQuestion(summary)))]
        && knowledgeGraph == Merged(old(knowledgeGraph), action.pieces)
        && conversationEnded && !waitingForInput
        && currentQuestion == old(currentQuestion) && followUpOptions == old(followUpOptions)
      ensures action.AskForFollowup? ==>
        && currentQuestion == action.question.GetOr(DefaultQuestion)
        && followUpOptions == action.options
        && waitingForInput && !conversationEnded
        && messages == old(messages) && knowledgeGraph == old(knowledgeGraph)
      ensures action.AskUser? ==>
        && currentQuestion == DefaultQuestion && waitingForInput && !conversationEnded
        && followUpOptions == None
        && messages == old(messages) && knowledgeGraph == old(knowledgeGraph)
      ensures action.UnknownName? || action.CallFailed? ==>
        && messages == old(messages) && knowledgeGraph == old(knowledgeGraph)
        && currentQuestion == old(currentQuestion) && followUpOptions == old(followUpOptions)
        && !waitingForInput && !conversationEnded
    {
      match action
      case StopProcessing(pieces) =>
        var finalQuestion := StopProcessing(pieces, summary);
        messages := messages + [Message(Assistant, Text(finalQuestion))];
        conversationEnded := true;
      case AskForFollowup(question, options) =>
        currentQuestion := question.GetOr(DefaultQuestion);
        followUpOptions := options;
        waitingForInput := true;
      case AskUser =>
        currentQuestion := DefaultQuestion;
        waitingForInput := true;
      case UnknownName =>
      case CallFailed =>
    }
  }

  /**
   A scripted session: first question, a follow-up with two options, then stop
   with one knowledge piece. The conversation ends and the graph holds X -> Y.
   */
  method ScriptedConversation() returns (s: Session)
    ensures s.Valid() && s.Initialised()
    ensures s.conversationEnded && !s.waitingForInput
    ensures s.knowledgeGraph == map["X" := "Y"]
    ensures |s.messages| == 8 && s.messages[0] == SystemMessage1
  {
    s := new Session();
    s.InitialiseGraphIfAbsent();
    s.InitialiseIfAbsent();
    s.Dispatch(AskUser, None);
    s.Submit("", "Show revenue by major region");
    s.Dispatch(AskForFollowup(Some("Which regions count as major?"), Some(["A", "B"])), None);
    s.Submit("A", "");
    s.Dispatch(StopProcessing([Piece(Some("X"), Some("Y"))]), Some("Revenue by region A"));
  }
}
