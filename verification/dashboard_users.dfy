/** `get_dashboard_users_not_logged_in`: the dashboard accounts among a domain's mobile users
    that have no audit entry in a time window. A dashboard account is recognised by its
    username alone, with the regular expression `^\d*\.[a-zA-Z]*@.*` applied by `match`
    (anchored at the start, not at the end). */
module DashboardUsers {
  import opened IsoFormat

  predicate IsAsciiLetter(c: char) {
    'a' <= c <= 'z' || 'A' <= c <= 'Z'
  }

  /** The end of the run of digits that starts at `i`. */
  function SkipDigits(u: string, i: nat): (k: nat)
    requires i <= |u|
    ensures i <= k <= |u|
    ensures forall p :: i <= p < k ==> IsDigit(u[p])
    ensures k < |u| ==> !IsDigit(u[k])
    decreases |u| - i
  {
    if i < |u| && IsDigit(u[i]) then SkipDigits(u, i + 1) else i
  }

  /** The end of the run of ASCII letters that starts at `i`. */
  function SkipLetters(u: string, i: nat): (k: nat)
    requires i <= |u|
    ensures i <= k <= |u|
    ensures forall p :: i <= p < k ==> IsAsciiLetter(u[p])
    ensures k < |u| ==> !IsAsciiLetter(u[k])
    decreases |u| - i
  {
    if i < |u| && IsAsciiLetter(u[i]) then SkipLetters(u, i + 1) else i
  }

  /** `dashboard_uname_rx.match(u)`: neither a dot nor an at sign is a digit or a letter, so
      the pattern matches exactly when the longest run of digits is followed by a dot and
      the longest run of letters after it by an at sign; what follows is free. */
  predicate IsDashboardName(u: string) {
    var i := SkipDigits(u, 0);
    && i < |u| && u[i] == '.'
    && var j := SkipLetters(u, i + 1);
       j < |u| && u[j] == '@'
  }

  /** The pattern read as a description of the prefix of `u`: digits up to a dot at `i`,
      letters up to an at sign at `j`. */
  ghost predicate DashboardPattern(u: string) {
    exists i, j ::
      && 0 <= i < j < |u| && u[i] == '.' && u[j] == '@'
      && (forall p :: 0 <= p < i ==> IsDigit(u[p]))
      && (forall p :: i < p < j ==> IsAsciiLetter(u[p]))
  }

  /** The matcher accepts exactly the usernames the pattern describes. */
  lemma MatcherIsPattern(u: string)
    ensures IsDashboardName(u) <==> DashboardPattern(u)
  {
    var i := SkipDigits(u, 0);
    if IsDashboardName(u) {
      var j := SkipLetters(u, i + 1);
      assert 0 <= i < j < |u|;
    }
    if DashboardPattern(u) {
      var i', j' :| && 0 <= i' < j' < |u| && u[i'] == '.' && u[j'] == '@'
                    && (forall p :: 0 <= p < i' ==> IsDigit(u[p]))
                    && (forall p :: i' < p < j' ==> IsAsciiLetter(u[p]));
      assert i == i';
      var j := SkipLetters(u, i + 1);
      assert j == j';
    }
  }

  /** Names the pattern accepts and rejects: the trailing part is free, the letters may be
      missing, a digit among the letters or a missing dot is refused. */
  lemma PatternExamples()
    ensures IsDashboardName("123.ab@x")
    ensures IsDashboardName(".@")
    ensures !IsDashboardName("123ab@x")
    ensures !IsDashboardName("1.a2@x")
    ensures !IsDashboardName("x1.a@x")
  {
    assert SkipDigits("123.ab@x", 0) == 3;
    assert SkipLetters("123.ab@x", 4) == 6;
    assert SkipDigits("123ab@x", 0) == 3;
    assert SkipDigits("1.a2@x", 0) == 1;
    assert SkipLetters("1.a2@x", 2) == 3;
  }

  /** A row of the dashboard audit log: who used the dashboard and when. Times are points
      of one ordered scale. */
  datatype AuditEntry = AuditEntry(username: string, timeOfUse: int)

  /** Some audit entry for `u` lies in `[start, end)`. */
  predicate LoggedInDuring(audit: seq<AuditEntry>, u: string, start: int, end: int) {
    exists k :: 0 <= k < |audit| && audit[k].username == u && start <= audit[k].timeOfUse < end
  }

  /** `u` is the username of one of the `(id, username)` pairs. */
  predicate Listed(users: seq<(string, string)>, u: string) {
    exists k :: 0 <= k < |users| && users[k].1 == u
  }

  /** `get_dashboard_users_not_logged_in(start, end)` over the domain's mobile users `users`
      and the audit log `audit`: the dashboard usernames among the users, less the dashboard
      usernames with an audit entry in the window. So every name returned is a listed
      username of the dashboard pattern with no audit entry in the window, and a listed
      username of that pattern is left out only when it has one. */
  method DashboardUsersNotLoggedIn(users: seq<(string, string)>, audit: seq<AuditEntry>,
                                   start: int, end: int) returns (notLoggedIn: set<string>)
    ensures forall u :: u in notLoggedIn <==>
      Listed(users, u) && IsDashboardName(u) && !LoggedInDuring(audit, u, start, end)
    ensures forall u :: u in notLoggedIn ==> DashboardPattern(u)
    ensures forall k :: 0 <= k < |users| && DashboardPattern(users[k].1) ==>
      (users[k].1 in notLoggedIn <==> !LoggedInDuring(audit, users[k].1, start, end))
  {
    var dashboardUsernames: set<string> := {};
    var i := 0;
    while i < |users|
      invariant 0 <= i <= |users|
      invariant forall u :: u in dashboardUsernames <==>
        IsDashboardName(u) && exists k :: 0 <= k < i && users[k].1 == u
    {
      var uname := users[i].1;
      if IsDashboardName(uname) {
        dashboardUsernames := dashboardUsernames + {uname};
      }
      i := i + 1;
    }
    var loggedIn: set<string> := {};
    var j := 0;
    while j < |audit|
      invariant 0 <= j <= |audit|
      invariant forall u :: u in loggedIn <==>
        IsDashboardName(u)
        && exists k :: 0 <= k < j && audit[k].username == u && start <= audit[k].timeOfUse < end
    {
      var entry := audit[j];
      if start <= entry.timeOfUse < end && IsDashboardName(entry.username) {
        loggedIn := loggedIn + {entry.username};
      }
      j := j + 1;
    }
    notLoggedIn := dashboardUsernames - loggedIn;
    forall u | u in notLoggedIn
      ensures DashboardPattern(u)
    {
      MatcherIsPattern(u);
    }
    forall k | 0 <= k < |users| && DashboardPattern(users[k].1)
      ensures users[k].1 in notLoggedIn <==> !LoggedInDuring(audit, users[k].1, start, end)
    {
      MatcherIsPattern(users[k].1);
    }
  }
}
