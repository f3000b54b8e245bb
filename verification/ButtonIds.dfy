/** Button ids: how tokens are written into them and read back out. */
module ButtonIds {
  import opened Wrappers

  const LOGIN_APPROVAL_YES := "login_yes"
  const LOGIN_APPROVAL_NO := "login_no"

  /** Position of the first colon, or the length when there is none. */
  function ColonAt(s: string): (i: nat)
    ensures i <= |s|
    ensures forall k :: 0 <= k < i ==> s[k] != ':'
    ensures i < |s| ==> s[i] == ':'
  {
    if s == [] || s[0] == ':' then 0 else 1 + ColonAt(s[1..])
  }

  /** Split a confirm button's id at its first colon; an empty token counts as none. */
  function ParseConfirmReply(replyId: Option<string>): (Option<string>, Option<string>) {
    if replyId.None? || replyId.value == "" then (None, None)
    else
      var s := replyId.value;
      var i := ColonAt(s);
      var token := if i < |s| then s[i + 1..] else "";
      (Some(s[..i]), if token == "" then None else Some(token))
  }

  function ConfirmId(base: string, token: string): string {
    base + ":" + token
  }

  /** A card's button gives its token back, whatever the token is - colons included - and no other id does. */
  lemma ConfirmRoundTrip(base: string, token: string, replyId: Option<string>)
    requires base != "" && ':' !in base && token != ""
    ensures ParseConfirmReply(replyId) == (Some(base), Some(token)) <==> replyId == Some(ConfirmId(base, token))
  {
    var id := ConfirmId(base, token);
    assert id[|base|] == ':' && id[..|base|] == base && id[|base| + 1..] == token;
    assert forall k :: 0 <= k < |base| ==> id[k] == base[k] && base[k] in base;
    assert ColonAt(id) == |base|;
    if replyId.Some? && ParseConfirmReply(replyId) == (Some(base), Some(token)) {
      var s := replyId.value;
      assert s == s[..ColonAt(s)] + [s[ColonAt(s)]] + s[ColonAt(s) + 1..];
    }
  }

  /** An id without a colon is all base and no token. */
  lemma BareIdHasNoToken(id: string)
    requires id != "" && ':' !in id
    ensures ParseConfirmReply(Some(id)) == (Some(id), None)
  {
    assert ColonAt(id) == |id| && id[..|id|] == id;
  }

  /** The pieces between the colons; always at least one. */
  function Split(s: string): (parts: seq<string>)
    ensures parts != []
    decreases |s|
  {
    var i := ColonAt(s);
    if i == |s| then [s] else [s[..i]] + Split(s[i + 1..])
  }

  function Join(parts: seq<string>): string
    requires parts != []
  {
    if |parts| == 1 then parts[0] else parts[0] + ":" + Join(parts[1..])
  }

  /** Splitting loses nothing and no piece holds a colon. */
  lemma {:induction false} SplitJoin(s: string)
    ensures Join(Split(s)) == s
    ensures forall p :: p in Split(s) ==> ':' !in p
    decreases |s|
  {
    var i := ColonAt(s);
    if i < |s| {
      SplitJoin(s[i + 1..]);
      assert Split(s)[1..] == Split(s[i + 1..]);
      assert s == s[..i] + ":" + s[i + 1..];
    }
  }

  /** And joining colon-free pieces is undone by splitting. */
  lemma {:induction false} JoinSplit(parts: seq<string>)
    requires parts != [] && forall p :: p in parts ==> ':' !in p
    ensures Split(Join(parts)) == parts
  {
    var s := Join(parts);
    var p := parts[0];
    assert p in parts;
    assert forall k :: 0 <= k < |p| ==> s[k] == p[k] && p[k] in p;
    if |parts| == 1 {
      assert ColonAt(s) == |s|;
    } else {
      assert s[|p|] == ':' && s[..|p|] == p && s[|p| + 1..] == Join(parts[1..]);
      assert ColonAt(s) == |p|;
      JoinSplit(parts[1..]);
    }
  }

  datatype LoginApproval = LoginApproval(decision: string, challenge: string, verifier: string)

  function BuildLoginApprovalId(a: LoginApproval): string {
    a.decision + ":" + a.challenge + ":" + a.verifier
  }

  function ParseLoginApprovalId(replyId: Option<string>): Option<LoginApproval> {
    if replyId.None? || replyId.value == "" || |replyId.value| > 256 then None
    else
      var parts := Split(replyId.value);
      if |parts| != 3 || parts[0] !in {LOGIN_APPROVAL_YES, LOGIN_APPROVAL_NO} then None
      else if |parts[2]| < 16 || |parts[1]| != 36 then None
      else Some(LoginApproval(parts[0], parts[1], parts[2]))
  }

  /** The approvals a button may carry. */
  predicate WellFormed(a: LoginApproval) {
    && a.decision in {LOGIN_APPROVAL_YES, LOGIN_APPROVAL_NO}
    && |a.challenge| == 36 && ':' !in a.challenge
    && |a.verifier| >= 16 && ':' !in a.verifier
    && |BuildLoginApprovalId(a)| <= 256
  }

  function Parts(a: LoginApproval): seq<string> {
    [a.decision, a.challenge, a.verifier]
  }

  lemma BuildIsJoin(a: LoginApproval)
    ensures Join(Parts(a)) == BuildLoginApprovalId(a)
  {
    var parts := Parts(a);
    assert parts[1..] == [a.challenge, a.verifier] && parts[1..][1..] == [a.verifier];
    assert Join(parts[1..]) == a.challenge + ":" + a.verifier;
    assert a.decision + ":" + (a.challenge + ":" + a.verifier) == BuildLoginApprovalId(a);
  }

  lemma BuiltIdIsAccepted(a: LoginApproval)
    requires WellFormed(a)
    ensures ParseLoginApprovalId(Some(BuildLoginApprovalId(a))) == Some(a)
  {
    BuildIsJoin(a);
    assert forall p :: p in Parts(a) ==> p == a.decision || p == a.challenge || p == a.verifier;
    JoinSplit(Parts(a));
  }

  lemma AcceptedIdWasBuilt(id: string, a: LoginApproval)
    requires ParseLoginApprovalId(Some(id)) == Some(a)
    ensures WellFormed(a) && id == BuildLoginApprovalId(a)
  {
    SplitJoin(id);
    BuildIsJoin(a);
    assert Split(id) == Parts(a);
    assert a.challenge in Split(id) && a.verifier in Split(id);
  }

  /** Reading and writing a login button are inverse: exactly the ids of well-formed approvals are accepted. */
  lemma LoginApprovalRoundTrip(replyId: Option<string>, a: LoginApproval)
    ensures ParseLoginApprovalId(replyId) == Some(a)
       <==> WellFormed(a) && replyId == Some(BuildLoginApprovalId(a))
  {
    if WellFormed(a) { BuiltIdIsAccepted(a); }
    if ParseLoginApprovalId(replyId) == Some(a) { AcceptedIdWasBuilt(replyId.value, a); }
  }
}
