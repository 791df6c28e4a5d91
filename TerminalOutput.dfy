/**
 * The diagnostic console shown while a request is outstanding. It keeps a
 * buffer of log lines that is updated each time its `(status, isActive)`
 * inputs change: while active, a non-empty status is appended behind the last
 * ten earlier lines; once inactive, the buffer is emptied.
 */
module TerminalOutput {
  import opened Wrappers
  import opened JsArray

  const LogPrefix: string := "> "

  /** How many earlier lines survive an append (`slice(-10)`). */
  const Retained: nat := 10

  /** The buffer never holds more than this: ten retained lines plus the new one. */
  const MaxLogs: nat := Retained + 1

  /** The buffer after one run of the update rule. */
  function NextLogs(logs: seq<string>, status: string, isActive: bool): seq<string>
  {
    if isActive && status != "" then SliceLast(logs, Retained) + [LogPrefix + status]
    else if !isActive then []
    else logs
  }

  /**
   * An active, non-empty status appends `> status` last, behind the last ten
   * earlier lines in their original order; the buffer holds at most eleven lines.
   */
  lemma AppendRule(logs: seq<string>, status: string)
    requires status != ""
    ensures var r := NextLogs(logs, status, true);
      && |r| <= MaxLogs
      && |r| == (if |logs| < Retained then |logs| else Retained) + 1
      && r[|r| - 1] == LogPrefix + status
      && logs == logs[..|logs| - (|r| - 1)] + r[..|r| - 1]
  {
    var r := NextLogs(logs, status, true);
    assert r[..|r| - 1] == SliceLast(logs, Retained);
  }

  /** Once inactive, the buffer is empty whatever the status. */
  lemma ClearRule(logs: seq<string>, status: string)
    ensures NextLogs(logs, status, false) == []
  {
  }

  /** An empty status while active changes nothing. */
  lemma EmptyStatusRule(logs: seq<string>)
    ensures NextLogs(logs, "", true) == logs
  {
  }

  /** Eleven lines is reached: a full buffer stays at eleven, dropping its oldest line. */
  lemma FullBufferSlides(logs: seq<string>, status: string)
    requires |logs| == MaxLogs && status != ""
    ensures |NextLogs(logs, status, true)| == MaxLogs
    ensures NextLogs(logs, status, true) == logs[1..] + [LogPrefix + status]
  {
  }

  /** What the component draws: its lines and whether the blinking cursor follows them. */
  datatype ConsoleView = ConsoleView(lines: seq<string>, cursor: bool)

  /** The drawing for the given state; `None` is drawing nothing. */
  function View(logs: seq<string>, isActive: bool): (v: Option<ConsoleView>)
    ensures v == None <==> !isActive && logs == []
    ensures v.Some? ==> v.value.lines == logs && v.value.cursor == isActive
  {
    if !isActive && |logs| == 0 then None else Some(ConsoleView(logs, isActive))
  }

  /**
   * The component's state: the log buffer and the inputs it last saw. The
   * update rule runs when the component first appears and again whenever
   * `status` or `isActive` differs from the previous inputs.
   */
  class Console {
    var logs: seq<string>
    var status: string
    var isActive: bool

    /** The buffer is bounded, and empty whenever the console is inactive. */
    ghost predicate Valid()
      reads this
    {
      |logs| <= MaxLogs && (!isActive ==> logs == [])
    }

    /** First appearance: the buffer starts empty and the update rule runs once. */
    constructor (status: string, isActive: bool)
      ensures Valid()
      ensures this.status == status && this.isActive == isActive
      ensures logs == NextLogs([], status, isActive)
    {
      this.status := status;
      this.isActive := isActive;
      logs := NextLogs([], status, isActive);
    }

    /** New inputs arrive; the update rule runs only if they changed. */
    method Receive(status: string, isActive: bool)
      requires Valid()
      modifies this
      ensures Valid()
      ensures this.status == status && this.isActive == isActive
      ensures logs == if status == old(this.status) && isActive == old(this.isActive)
                      then old(logs) else NextLogs(old(logs), status, isActive)
    {
      var changed := status != this.status || isActive != this.isActive;
      this.status := status;
      this.isActive := isActive;
      if changed {
        logs := NextLogs(logs, status, isActive);
      }
    }

    /** The current drawing. */
    function Render(): (v: Option<ConsoleView>)
      reads this
      requires Valid()
      ensures v == None <==> !isActive
    {
      View(logs, isActive)
    }
  }
}
