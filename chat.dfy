// The "Assistant IA" page's conversation history (`st.session_state.soc_chat`):
// a list kept across reruns, created empty once, extended by a question and
// its answer on every non-empty submit, shown as its ten newest entries with
// the newest first, and emptied by the clear button.

module Chat {

  import opened Metrics

  datatype Role = User | Assistant

  /** `(role, message, timestamp)`; the timestamp is the clock reading passed in. */
  datatype Entry = Entry(role: Role, message: string, at: int)

  /** How many entries the history panel shows. */
  const DisplayWindow: nat := 10

  /** `reversed(s)`. */
  function Reversed(s: seq<Entry>): (r: seq<Entry>)
    ensures |r| == |s|
    ensures forall k :: 0 <= k < |s| ==> r[k] == s[|s| - 1 - k]
  {
    if s == [] then [] else Reversed(s[1..]) + [s[0]]
  }

  /** `reversed(log[-10:])`: the ten newest entries, newest first. */
  function Displayed(log: seq<Entry>): (view: seq<Entry>)
    ensures |view| == if |log| < DisplayWindow then |log| else DisplayWindow
    ensures forall k :: 0 <= k < |view| ==> view[k] == log[|log| - 1 - k]
  {
    Reversed(Tail(log, DisplayWindow))
  }

  /** Right after a submit, the panel opens on the answer and then the question. */
  lemma DisplayedAfterSubmit(log: seq<Entry>, question: Entry, answer: Entry)
    ensures |Displayed(log + [question, answer])| >= 2
    ensures Displayed(log + [question, answer])[0] == answer
    ensures Displayed(log + [question, answer])[1] == question
  {
    var l := log + [question, answer];
    assert l[|l| - 1] == answer && l[|l| - 2] == question;
  }

  /** A log of at most ten entries is shown whole, newest first. */
  lemma DisplayedShortLog(log: seq<Entry>)
    requires |log| <= DisplayWindow
    ensures Displayed(log) == Reversed(log)
  {
  }

  class ChatLog {
    var entries: seq<Entry>

    /** `st.session_state.soc_chat = []` on the first visit. */
    constructor ()
      ensures entries == []
    {
      entries := [];
    }

    /**
     * The form handler: when the form is submitted with a non-empty question,
     * the question and then the answer (produced by the assistant, passed in)
     * are appended; otherwise nothing changes.
     */
    method Submit(submitted: bool, question: string, answer: string, askedAt: int, answeredAt: int)
      modifies this
      ensures submitted && question != [] ==>
        entries == old(entries) + [Entry(User, question, askedAt), Entry(Assistant, answer, answeredAt)]
      ensures !(submitted && question != []) ==> entries == old(entries)
      ensures |entries| == |old(entries)| + (if submitted && question != [] then 2 else 0)
      ensures entries[..|old(entries)|] == old(entries)
    {
      if submitted && question != [] {
        entries := entries + [Entry(User, question, askedAt)];
        entries := entries + [Entry(Assistant, answer, answeredAt)];
      }
    }

    /** The history panel: the ten newest entries, newest first, read from the log. */
    method Shown() returns (view: seq<Entry>)
      ensures view == Displayed(entries)
      ensures |view| <= DisplayWindow
      ensures forall k :: 0 <= k < |view| ==> view[k] == entries[|entries| - 1 - k]
    {
      var n := |entries|;
      var count := if n < DisplayWindow then n else DisplayWindow;
      view := [];
      var k := 0;
      while k < count
        invariant 0 <= k <= count
        invariant |view| == k
        invariant forall j :: 0 <= j < k ==> view[j] == entries[n - 1 - j]
      {
        view := view + [entries[n - 1 - k]];
        k := k + 1;
      }
      var spec := Displayed(entries);
      assert |spec| == count;
      assert forall j :: 0 <= j < count ==> spec[j] == view[j];
    }

    /** The clear button: `st.session_state.soc_chat = []`. */
    method Clear()
      modifies this
      ensures entries == []
    {
      entries := [];
    }
  }
}
