/** Mapping of a remote session's `status`/`status_detail` pair to a worker disposition. */
module Status {
  import opened Wrappers

  datatype Disposition = Live | Finished | WaitingForHuman | Failed | Unknown

  /** `remoteTerminal`: the session is gone or stopped remotely, so no DELETE is needed. */
  datatype Mapping = Mapping(disposition: Disposition, remoteTerminal: bool)

  // ------------------------------------------------------------------ normalisation

  predicate IsSpace(c: char) { c == ' ' || c == '\t' || c == '\n' || c == '\r' }

  function StripLeft(s: string): string {
    if s != "" && IsSpace(s[0]) then StripLeft(s[1..]) else s
  }

  function StripRight(s: string): string {
    if s != "" && IsSpace(s[|s| - 1]) then StripRight(s[..|s| - 1]) else s
  }

  function LowerChar(c: char): char {
    if 'A' <= c <= 'Z' then c - 'A' + 'a' else c
  }

  function Lower(s: string): string { seq(|s|, i requires 0 <= i < |s| => LowerChar(s[i])) }

  function Normalize(s: Option<string>): string {
    match s
    case None => ""
    case Some(t) => Lower(StripRight(StripLeft(t)))
  }

  // ------------------------------------------------------------------ vocabulary

  predicate LiveStatus(s: string) { s == "new" || s == "claimed" || s == "running" || s == "resuming" }

  predicate WaitingDetail(d: string) { d == "waiting_for_user" || d == "waiting_for_approval" }

  predicate BillingDetail(d: string) {
    || d == "usage_limit_exceeded" || d == "out_of_credits" || d == "out_of_quota"
    || d == "no_quota_allocation" || d == "payment_declined" || d == "org_usage_limit_exceeded"
    || d == "user_usage_limit_exceeded" || d == "total_session_limit_exceeded"
  }

  predicate ResumableDetail(d: string) { d == "inactivity" || d == "user_request" }

  predicate KnownStatus(s: string) { LiveStatus(s) || s == "exit" || s == "error" || s == "suspended" }

  predicate KnownDetail(d: string) {
    || d == "finished" || d == "working" || d == "error"
    || WaitingDetail(d) || BillingDetail(d) || ResumableDetail(d)
  }

  /** `classify`, on the pair as the remote sent it. */
  function Classify(status: Option<string>, statusDetail: Option<string>): Mapping {
    var s, d := Normalize(status), Normalize(statusDetail);
    if s == "exit" then Mapping(Finished, true)
    else if s == "error" then Mapping(Failed, true)
    else if s == "suspended" then
      if BillingDetail(d) then Mapping(Failed, true)
      else if ResumableDetail(d) then Mapping(WaitingForHuman, true)
      else if d == "error" then Mapping(Failed, true)
      else if WaitingDetail(d) then Mapping(WaitingForHuman, true)
      else Mapping(Unknown, true)
    else if LiveStatus(s) then
      if d == "" || d == "working" then Mapping(Live, false)
      else if d == "finished" then Mapping(Finished, false)
      else if WaitingDetail(d) then Mapping(WaitingForHuman, false)
      else if BillingDetail(d) then Mapping(Failed, false)
      else if d == "error" then Mapping(Failed, false)
      else if ResumableDetail(d) then Mapping(WaitingForHuman, false)
      else Mapping(Unknown, false)
    else Mapping(Unknown, false)
  }

  /** `_disposition`: structured output turns a waiting session into a finished one. */
  function Dispose(status: Option<string>, statusDetail: Option<string>, hasOutput: bool): Mapping {
    var m := Classify(status, statusDetail);
    if m.disposition == WaitingForHuman && hasOutput then m.(disposition := Finished) else m
  }

  // ------------------------------------------------------------------ what a pair means

  /** The session is at work. */
  predicate AtWork(s: string, d: string) { LiveStatus(s) && (d == "" || d == "working") }

  /** It has done its work: it exited, or says so while it is still up. */
  predicate Done(s: string, d: string) { s == "exit" || (LiveStatus(s) && d == "finished") }

  /** It waits for somebody, or may be resumed by somebody. */
  predicate Waits(s: string, d: string) { (LiveStatus(s) || s == "suspended") && (WaitingDetail(d) || ResumableDetail(d)) }

  /** It cannot go on: it errored, or nobody pays for it any more. */
  predicate Stuck(s: string, d: string) {
    s == "error" || ((LiveStatus(s) || s == "suspended") && (BillingDetail(d) || d == "error"))
  }

  /** An undocumented status; or an undocumented detail of a live or suspended session; or a
      suspension reported as `finished`, `working` or without detail. */
  predicate Unclear(s: string, d: string) {
    || !KnownStatus(s)
    || (LiveStatus(s) && d != "" && !KnownDetail(d))
    || (s == "suspended" && (d == "" || d == "finished" || d == "working" || !KnownDetail(d)))
  }

  /** Which pairs get which verdict: a session that exited or errored whatever its detail, the others
      by their detail; and a DELETE is skipped exactly for those that exited, errored or are suspended. */
  lemma ClassifiesExactly(status: Option<string>, detail: Option<string>)
    ensures
      var s, d := Normalize(status), Normalize(detail);
      var m := Classify(status, detail);
      && (m.disposition == Live <==> AtWork(s, d))
      && (m.disposition == Finished <==> Done(s, d))
      && (m.disposition == WaitingForHuman <==> Waits(s, d))
      && (m.disposition == Failed <==> Stuck(s, d))
      && (m.disposition == Unknown <==> Unclear(s, d))
      && (m.remoteTerminal <==> s == "exit" || s == "error" || s == "suspended")
  {
    hide Normalize, LiveStatus, WaitingDetail, BillingDetail, ResumableDetail;
    StatusesDiffer(Normalize(status));
    DetailsDiffer(Normalize(detail));
  }

  lemma StatusesDiffer(s: string)
    ensures LiveStatus(s) ==> s != "exit" && s != "error" && s != "suspended"
    ensures s == "suspended" ==> s != "exit" && s != "error"
    ensures s == "exit" ==> s != "error"
  {}

  /** No detail is in two of the documented sets. */
  lemma DetailsDiffer(d: string)
    ensures d in {"", "working", "finished", "error"} ==> !WaitingDetail(d) && !BillingDetail(d) && !ResumableDetail(d)
    ensures WaitingDetail(d) ==> !BillingDetail(d) && !ResumableDetail(d)
    ensures BillingDetail(d) ==> !ResumableDetail(d)
    ensures d == "working" ==> d != "finished" && d != "error"
    ensures d == "finished" ==> d != "error"
  {
    if BillingDetail(d) { assert d[|d| - 1] in {'d', 's', 'a', 'n'} && |d| >= 12; }
    if WaitingDetail(d) { assert d[0] == 'w' && d[|d| - 1] in {'r', 'l'} && |d| >= 12; }
    if ResumableDetail(d) { assert d[|d| - 1] in {'y', 't'} && |d| >= 10; }
  }

  /** With output a session that waits has finished; no other verdict depends on it. */
  lemma DisposesExactly(status: Option<string>, detail: Option<string>, output: bool)
    ensures
      var s, d := Normalize(status), Normalize(detail);
      var m := Dispose(status, detail, output);
      && (m.disposition == Live <==> AtWork(s, d))
      && (m.disposition == Finished <==> Done(s, d) || (Waits(s, d) && output))
      && (m.disposition == WaitingForHuman <==> Waits(s, d) && !output)
      && (m.disposition == Failed <==> Stuck(s, d))
      && (m.disposition == Unknown <==> Unclear(s, d))
      && (m.remoteTerminal <==> s == "exit" || s == "error" || s == "suspended")
  {
    hide Normalize, Classify, AtWork, Done, Waits, Stuck, Unclear;
    ClassifiesExactly(status, detail);
  }

  /** The header comment promises UNKNOWN for any undocumented value; an exited session with a
      made-up detail is the counterexample. */
  lemma UndocumentedDetailOfAnExitedSession()
    ensures !KnownDetail(Normalize(Some("mystery")))
    ensures Classify(Some("exit"), Some("mystery")).disposition == Finished
  {
    assert Normalize(Some("exit")) == "exit";
    assert Normalize(Some("mystery"))[0] == 'm' && Normalize(Some("mystery"))[1] == 'y';
  }

  // ------------------------------------------------------------------ spelling does not matter

  lemma {:induction false} LowerSpaces(s: string)
    ensures StripLeft(Lower(s)) == Lower(StripLeft(s))
    decreases |s|
  {
    if s != "" && IsSpace(s[0]) {
      assert Lower(s)[1..] == Lower(s[1..]);
      LowerSpaces(s[1..]);
    }
  }

  lemma {:induction false} LowerSpacesRight(s: string)
    ensures StripRight(Lower(s)) == Lower(StripRight(s))
    decreases |s|
  {
    if s != "" && IsSpace(s[|s| - 1]) {
      assert Lower(s)[..|s| - 1] == Lower(s[..|s| - 1]);
      LowerSpacesRight(s[..|s| - 1]);
    }
  }

  lemma {:induction false} StripLeftEnds(s: string)
    ensures StripLeft(s) == "" || !IsSpace(StripLeft(s)[0])
    decreases |s|
  {
    if s != "" && IsSpace(s[0]) { StripLeftEnds(s[1..]); }
  }

  lemma {:induction false} StripRightEnds(s: string)
    ensures StripRight(s) == "" || !IsSpace(StripRight(s)[|StripRight(s)| - 1])
    ensures StripRight(s) <= s
    decreases |s|
  {
    if s != "" && IsSpace(s[|s| - 1]) { StripRightEnds(s[..|s| - 1]); }
  }

  /** Upper case and surrounding blanks never change a verdict. */
  lemma SpellingIsIrrelevant(status: string, detail: string)
    ensures Classify(Some(Normalize(Some(status))), Some(Normalize(Some(detail)))) ==
            Classify(Some(status), Some(detail))
    ensures Normalize(Some(" " + status)) == Normalize(Some(status))
  {
    NormalizeIdempotent(status);
    NormalizeIdempotent(detail);
    assert (" " + status)[1..] == status;
  }

  lemma NormalizeIdempotent(s: string)
    ensures Normalize(Some(Normalize(Some(s)))) == Normalize(Some(s))
  {
    var l := StripLeft(s);
    var t := StripRight(l);
    StripLeftEnds(s);
    StripRightEnds(l);
    assert StripLeft(t) == t;
    assert StripRight(t) == t;
    LowerSpaces(t);
    LowerSpacesRight(t);
    assert Lower(Lower(t)) == Lower(t);
  }
}
