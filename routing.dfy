/** The INVITE router of drachtio-apps/app-2/index.js: the user part of the
    To URI is taken with the pattern sip:(\d+)@ (the userinfo of a SIP URI,
    section 19.1.1 of RFC 3261) and classified by a fixed rule order:
    exact 6000, exact 9999, prefix 555, otherwise not found. */
module Routing {
  import opened Common

  const SipScheme := "sip:"
  const DirectExtension := "6000"
  const IvrExtension := "9999"
  const LiveKitPrefix := "555"

  // ---------------------------------------------------------------------
  // The pattern sip:(\d+)@
  // ---------------------------------------------------------------------

  /** The pattern matches `uri` at index `i` with capture group `user`. */
  ghost predicate MatchesAt(uri: string, i: nat, user: string) {
    && |user| >= 1
    && AllDigits(user)
    && i + 4 + |user| < |uri|
    && uri[i..i + 4] == SipScheme
    && uri[i + 4..i + 4 + |user|] == user
    && uri[i + 4 + |user|] == '@'
  }

  /** No match of the pattern starts at an index in [lo, hi). */
  ghost predicate NoMatchBetween(uri: string, lo: nat, hi: nat) {
    forall j: nat, other: string :: lo <= j < hi ==> !MatchesAt(uri, j, other)
  }

  /** The match a regular-expression engine reports: the leftmost one. */
  ghost predicate LeftmostMatch(uri: string, i: nat, user: string) {
    MatchesAt(uri, i, user) && NoMatchBetween(uri, 0, i)
  }

  /** Length of the longest run of digits in `s` starting at `j`. */
  function DigitRun(s: string, j: nat): (n: nat)
    requires j <= |s|
    ensures j + n <= |s|
    ensures forall k :: j <= k < j + n ==> IsDigit(s[k])
    ensures j + n == |s| || !IsDigit(s[j + n])
    decreases |s| - j
  {
    if j < |s| && IsDigit(s[j]) then 1 + DigitRun(s, j + 1) else 0
  }

  /** Attempt the pattern at index `i`: `\d+` takes the whole digit run,
      and since '@' is not a digit no shorter run can be followed by '@'. */
  function MatchAt(uri: string, i: nat): (r: Option<string>)
    ensures r.Some? ==> |r.value| >= 1 && AllDigits(r.value)
  {
    if i + 4 <= |uri| && uri[i..i + 4] == SipScheme then
      var n := DigitRun(uri, i + 4);
      if n >= 1 && i + 4 + n < |uri| && uri[i + 4 + n] == '@' then Some(uri[i + 4..i + 4 + n]) else None
    else None
  }

  /** Scan for the first index at or after `i` where the pattern matches. */
  function ExtractUserFrom(uri: string, i: nat): (r: Option<string>)
    ensures r.Some? ==> |r.value| >= 1 && AllDigits(r.value)
    decreases |uri| - i
  {
    if i >= |uri| then None
    else match MatchAt(uri, i)
      case Some(user) => Some(user)
      case None => ExtractUserFrom(uri, i + 1)
  }

  /** `to.match(/sip:(\d+)@/)?.[1]`: the captured user part, or None. */
  function ExtractUser(toUri: string): (r: Option<string>)
    ensures r.Some? ==> |r.value| >= 1 && AllDigits(r.value)
  {
    ExtractUserFrom(toUri, 0)
  }

  /** At one index, MatchAt reports exactly the capture of the pattern. */
  lemma MatchAtCorrect(uri: string, i: nat, user: string)
    ensures MatchAt(uri, i) == Some(user) <==> MatchesAt(uri, i, user)
  {
  }

  lemma MatchAtNone(uri: string, i: nat)
    requires MatchAt(uri, i) == None
    ensures forall other: string :: !MatchesAt(uri, i, other)
  {
    forall other: string ensures !MatchesAt(uri, i, other) {
      MatchAtCorrect(uri, i, other);
    }
  }

  lemma {:induction false} ExtractUserFromSound(uri: string, i: nat, user: string)
    requires ExtractUserFrom(uri, i) == Some(user)
    ensures exists k: nat :: i <= k && MatchesAt(uri, k, user) && NoMatchBetween(uri, i, k)
    decreases |uri| - i
  {
    match MatchAt(uri, i)
    case Some(found) =>
      MatchAtCorrect(uri, i, user);
      assert MatchesAt(uri, i, user) && NoMatchBetween(uri, i, i);
    case None =>
      MatchAtNone(uri, i);
      ExtractUserFromSound(uri, i + 1, user);
      var k: nat :| i + 1 <= k && MatchesAt(uri, k, user) && NoMatchBetween(uri, i + 1, k);
      assert NoMatchBetween(uri, i, k);
  }

  lemma {:induction false} ExtractUserFromComplete(uri: string, i: nat, k: nat, user: string)
    requires i <= k && MatchesAt(uri, k, user) && NoMatchBetween(uri, i, k)
    ensures ExtractUserFrom(uri, i) == Some(user)
    decreases k - i
  {
    if i == k {
      MatchAtCorrect(uri, k, user);
    } else {
      match MatchAt(uri, i)
      case Some(found) =>
        MatchAtCorrect(uri, i, found);
        assert false;
      case None =>
        ExtractUserFromComplete(uri, i + 1, k, user);
    }
  }

  lemma {:induction false} ExtractUserFromNone(uri: string, i: nat)
    requires ExtractUserFrom(uri, i) == None
    ensures NoMatchBetween(uri, i, |uri|)
    decreases |uri| - i
  {
    if i < |uri| {
      match MatchAt(uri, i)
      case Some(found) =>
        assert false;
      case None =>
        MatchAtNone(uri, i);
        ExtractUserFromNone(uri, i + 1);
    }
  }

  /** Whatever ExtractUser returns is the capture of the leftmost match. */
  lemma ExtractUserSound(toUri: string, user: string)
    requires ExtractUser(toUri) == Some(user)
    ensures exists i: nat :: LeftmostMatch(toUri, i, user)
  {
    ExtractUserFromSound(toUri, 0, user);
    var i: nat :| MatchesAt(toUri, i, user) && NoMatchBetween(toUri, 0, i);
    assert LeftmostMatch(toUri, i, user);
  }

  /** The capture of the leftmost match is what ExtractUser returns. */
  lemma ExtractUserComplete(toUri: string, i: nat, user: string)
    requires LeftmostMatch(toUri, i, user)
    ensures ExtractUser(toUri) == Some(user)
  {
    ExtractUserFromComplete(toUri, 0, i, user);
  }

  /** A To URI written as sip:<digits>@<host> yields exactly its digits. */
  lemma ExtractUserOfSipUri(user: string, host: string)
    requires |user| >= 1 && AllDigits(user)
    ensures ExtractUser(SipScheme + user + "@" + host) == Some(user)
  {
    var uri := SipScheme + user + "@" + host;
    assert uri[0..4] == SipScheme;
    assert uri[4..4 + |user|] == user;
    assert uri[4 + |user|] == '@';
    assert LeftmostMatch(uri, 0, user);
    ExtractUserComplete(uri, 0, user);
  }

  /** ExtractUser finds nothing exactly when the pattern matches nowhere. */
  lemma ExtractUserNone(toUri: string)
    ensures ExtractUser(toUri) == None <==> NoMatchBetween(toUri, 0, |toUri|)
  {
    if ExtractUser(toUri) == None {
      ExtractUserFromNone(toUri, 0);
    } else {
      var user := ExtractUser(toUri).value;
      ExtractUserSound(toUri, user);
      var i: nat :| LeftmostMatch(toUri, i, user);
      assert i < |toUri|;
    }
  }

  // ---------------------------------------------------------------------
  // Classification
  // ---------------------------------------------------------------------

  datatype Route = DirectRoute | IvrRoute | LiveKitRoute | NotFound

  /** The if/else chain of the INVITE handler over the captured user part.
      The exact rules are tested before the prefix rule; no exact extension
      starts with the prefix, so each route has a plain characterisation. */
  function Classify(toUser: Option<string>): (r: Route)
    ensures r == DirectRoute <==> toUser == Some(DirectExtension)
    ensures r == IvrRoute <==> toUser == Some(IvrExtension)
    ensures r == LiveKitRoute <==> toUser.Some? && LiveKitPrefix <= toUser.value
    ensures r == NotFound <==>
      toUser.None? ||
      (toUser.value != DirectExtension && toUser.value != IvrExtension && !(LiveKitPrefix <= toUser.value))
  {
    ExtensionsOutsidePrefix();
    if toUser == Some(DirectExtension) then DirectRoute
    else if toUser == Some(IvrExtension) then IvrRoute
    else if toUser.Some? && toUser.value != "" && LiveKitPrefix <= toUser.value then LiveKitRoute
    else NotFound
  }

  lemma ExtensionsOutsidePrefix()
    ensures !(LiveKitPrefix <= DirectExtension) && !(LiveKitPrefix <= IvrExtension)
  {
    assert DirectExtension[0] != LiveKitPrefix[0];
    assert IvrExtension[0] != LiveKitPrefix[0];
  }

  /** The route the INVITE handler takes for a To URI. */
  function RouteInvite(toUri: string): (r: Route)
    ensures NoMatchBetween(toUri, 0, |toUri|) ==> r == NotFound
  {
    ExtractUserNone(toUri);
    Classify(ExtractUser(toUri))
  }

  /** The same rules as a declarative table, evaluated in priority order. */
  datatype Matcher = Exact(value: string) | Prefix(prefix: string)

  datatype Rule = Rule(matcher: Matcher, route: Route)

  predicate Matches(m: Matcher, user: string) {
    match m
    case Exact(v) => user == v
    case Prefix(p) => p <= user
  }

  const RoutingTable: seq<Rule> :=
    [Rule(Exact(DirectExtension), DirectRoute), Rule(Exact(IvrExtension), IvrRoute), Rule(Prefix(LiveKitPrefix), LiveKitRoute)]

  /** The route of the first rule that matches, or NotFound when none does. */
  function FirstMatch(table: seq<Rule>, user: string): (r: Route)
    ensures (forall k :: 0 <= k < |table| ==> !Matches(table[k].matcher, user)) ==> r == NotFound
    ensures (exists k :: 0 <= k < |table| && Matches(table[k].matcher, user)) ==>
      exists k :: 0 <= k < |table| && Matches(table[k].matcher, user) && table[k].route == r
        && forall j :: 0 <= j < k ==> !Matches(table[j].matcher, user)
  {
    if table == [] then NotFound
    else if Matches(table[0].matcher, user) then table[0].route
    else FirstMatch(table[1..], user)
  }

  /** The if/else chain is first-match evaluation of the routing table. */
  lemma ClassifyIsFirstMatch(toUser: Option<string>)
    ensures Classify(toUser) == if toUser.None? then NotFound else FirstMatch(RoutingTable, toUser.value)
  {
    if toUser.Some? {
      var u := toUser.value;
      ExtensionsOutsidePrefix();
      var rest1, rest2 := RoutingTable[1..], RoutingTable[2..];
      assert rest1[1..] == rest2 && rest2[1..] == [];
      assert FirstMatch(rest2, u) == if LiveKitPrefix <= u then LiveKitRoute else NotFound;
      assert FirstMatch(rest1, u) == if u == IvrExtension then IvrRoute else FirstMatch(rest2, u);
    }
  }
}
