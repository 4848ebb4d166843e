/** Values shared by the whole model: execution results and optional values.
    Free text and JSON payloads are strings; a Python `None` is `None`. */
module Contracts {

  datatype Option<+T> = None | Some(value: T)

  datatype ExecutionStatus = Executed | Blocked | ReviewRequired | ControlFailure | Indeterminate

  datatype GovernedExecution = GovernedExecution(
    status: ExecutionStatus,
    requestId: string,
    toolExecuted: Option<bool>,
    reason: string,
    output: Option<string>,
    retryable: bool)

  /** What the constructor of an execution result insists on. */
  predicate WellFormed(e: GovernedExecution) {
    && !Blank(e.requestId) && !Blank(e.reason)
    && e.toolExecuted == ExpectedToolExecuted(e.status)
    && (e.retryable ==> e.status == ControlFailure)
  }

  function ExpectedToolExecuted(status: ExecutionStatus): Option<bool> {
    match status
    case Executed => Some(true)
    case Indeterminate => None
    case _ => Some(false)
  }

  /** The request a governed tool call makes. */
  datatype Action = Action(
    agentId: string,
    toolName: string,
    capability: string,
    arguments: string,
    requestId: string,
    idempotencyKey: string,
    runId: string,
    callId: string)

  datatype ApprovalRole = Controller | Counsel | CodeReviewer | BuyerLead

  /** Identity and role as the authentication adapter reports them. */
  datatype Principal = Principal(actorId: string, role: ApprovalRole)

  predicate IsSpace(c: char) {
    c == ' ' || c == '\t' || c == '\n' || c == '\r'
  }

  function StripLeft(s: string): string {
    if s != "" && IsSpace(s[0]) then StripLeft(s[1..]) else s
  }

  function StripRight(s: string): string {
    if s != "" && IsSpace(s[|s|-1]) then StripRight(s[..|s|-1]) else s
  }

  function Strip(s: string): string {
    StripRight(StripLeft(s))
  }

  /** The text the source calls empty: nothing is left after stripping. */
  predicate Blank(s: string)
    decreases |s|, 1
  {
    s == "" || BlankFrom(s)
  }

  /** Blank text has nothing but space characters. */
  lemma {:induction false} BlankExactly(s: string)
    ensures Blank(s) <==> forall i :: 0 <= i < |s| ==> s[i] in {' ', '\t', '\n', '\r'}
  {
    if s != "" {
      BlankExactly(s[1..]);
      assert forall i :: 0 <= i < |s[1..]| ==> s[1..][i] == s[i+1];
      assert Blank(s) <==> BlankFrom(s);
      if Blank(s) {
        forall i | 0 <= i < |s| ensures s[i] in {' ', '\t', '\n', '\r'} {
          if i > 0 {
            assert s[1..][i-1] == s[i];
          }
        }
      }
    }
  }

  /** Stripping takes space characters from both ends and nothing else. */
  lemma {:induction false} StrippedExactly(s: string) returns (i: nat, j: nat)
    ensures i <= j <= |s| && Strip(s) == s[i..j]
    ensures Blank(s[..i]) && Blank(s[j..])
    ensures i < j ==> s[i] !in {' ', '\t', '\n', '\r'} && s[j-1] !in {' ', '\t', '\n', '\r'}
  {
    i := StrippedLeft(s);
    var k := StrippedRight(s[i..]);
    j := i + k;
    assert s[i..][..k] == s[i..j] && s[i..][k..] == s[j..];
  }

  lemma {:induction false} StrippedLeft(s: string) returns (i: nat)
    ensures i <= |s| && StripLeft(s) == s[i..] && Blank(s[..i])
    ensures i < |s| ==> s[i] !in {' ', '\t', '\n', '\r'}
  {
    i := 0;
    if s != "" && IsSpace(s[0]) {
      i := StrippedLeft(s[1..]);
      i := i + 1;
      assert s[..i][1..] == s[1..][..i-1];
    }
  }

  lemma {:induction false} StrippedRight(s: string) returns (j: nat)
    ensures j <= |s| && StripRight(s) == s[..j] && Blank(s[j..])
    ensures j > 0 ==> s[j-1] !in {' ', '\t', '\n', '\r'}
  {
    j := |s|;
    if s != "" && IsSpace(s[|s|-1]) {
      j := StrippedRight(s[..|s|-1]);
      BlankExactly(s[..|s|-1][j..]);
      BlankExactly(s[j..]);
      assert forall k :: 0 <= k < |s| - 1 - j ==> s[j..][k] == s[..|s|-1][j..][k];
    }
  }

  lemma VisibleText(s: string)
    requires s != "" && !IsSpace(s[0])
    ensures !Blank(s)
  {
  }

  predicate BlankFrom(s: string)
    requires s != ""
    decreases |s|, 0
  {
    IsSpace(s[0]) && Blank(s[1..])
  }
}
