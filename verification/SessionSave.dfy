/** The debounced save of a scraper's session: a fingerprint of the auth cookies decides whether the durable row is
    written. */
module SessionSave {
  import opened Common

  /** What the jar gives back of a cookie. */
  datatype Cookie = Cookie(name: string, value: string)

  // ---------- strings ----------

  predicate OccursAt(s: string, t: string, i: nat) {
    i + |t| <= |s| && s[i..i + |t|] == t
  }

  predicate Contains(s: string, t: string) {
    exists i :: 0 <= i <= |s| && OccursAt(s, t, i)
  }

  /** The order of sort.Strings, from position i on. */
  predicate LeqFrom(a: string, b: string, i: nat)
    requires i <= |a| && i <= |b|
    decreases |a| - i
  {
    if i == |a| then true
    else if i == |b| then false
    else if a[i] != b[i] then a[i] < b[i]
    else LeqFrom(a, b, i + 1)
  }

  predicate Leq(a: string, b: string) { LeqFrom(a, b, 0) }

  lemma {:induction false} LeqTotal(a: string, b: string, i: nat)
    requires i <= |a| && i <= |b|
    ensures LeqFrom(a, b, i) || LeqFrom(b, a, i)
    decreases |a| - i
  {
    if i < |a| && i < |b| && a[i] == b[i] {
      LeqTotal(a, b, i + 1);
    }
  }

  lemma {:induction false} LeqAntisymmetric(a: string, b: string, i: nat)
    requires i <= |a| && i <= |b| && a[..i] == b[..i] && LeqFrom(a, b, i) && LeqFrom(b, a, i)
    ensures a == b
    decreases |a| - i
  {
    if i < |a| && i < |b| {
      assert a[..i + 1] == a[..i] + [a[i]] && b[..i + 1] == b[..i] + [b[i]];
      LeqAntisymmetric(a, b, i + 1);
    } else {
      assert a == a[..i] && b == b[..i];
    }
  }

  lemma {:induction false} LeqTransitive(a: string, b: string, c: string, i: nat)
    requires i <= |a| && i <= |b| && i <= |c| && LeqFrom(a, b, i) && LeqFrom(b, c, i)
    ensures LeqFrom(a, c, i)
    decreases |a| - i
  {
    if i < |a| && i < |b| && i < |c| && a[i] == b[i] == c[i] {
      LeqTransitive(a, b, c, i + 1);
    }
  }

  // ---------- sorting ----------

  predicate Sorted(s: seq<string>) {
    forall i, j :: 0 <= i < j < |s| ==> Leq(s[i], s[j])
  }

  function Insert(s: seq<string>, x: string, n: nat): (r: seq<string>)
    requires n <= |s|
    ensures |r| == |s| + 1
  {
    if n == 0 then [x] + s
    else if Leq(s[n - 1], x) then s[..n] + [x] + s[n..]
    else Insert(s, x, n - 1)
  }

  function Sort(s: seq<string>, n: nat): (r: seq<string>)
    requires n <= |s|
    ensures |r| == n
  {
    if n == 0 then [] else var t := Sort(s, n - 1); Insert(t, s[n - 1], |t|)
  }

  lemma {:induction false} InsertSorts(s: seq<string>, x: string, n: nat)
    requires n <= |s| && Sorted(s) && forall k :: n <= k < |s| ==> !Leq(s[k], x)
    ensures Sorted(Insert(s, x, n)) && multiset(Insert(s, x, n)) == multiset(s) + multiset{x}
  {
    hide Leq;
    if n > 0 && !Leq(s[n - 1], x) {
      InsertSorts(s, x, n - 1);
    } else {
      InsertHere(s, x, n);
      hide Sorted;
      assert s == s[..n] + s[n..];
      if n == 0 {
        assert s[..n] + [x] + s[n..] == [x] + s;
      }
    }
  }

  lemma InsertHere(s: seq<string>, x: string, n: nat)
    requires n <= |s| && Sorted(s) && forall k :: n <= k < |s| ==> !Leq(s[k], x)
    requires n > 0 ==> Leq(s[n - 1], x)
    ensures Sorted(s[..n] + [x] + s[n..])
  {
    hide Leq;
    forall i | 0 <= i < n
      ensures Leq(s[i], x)
    {
      LeqTransitiveAt(s, i, n - 1, x);
    }
    forall k | n <= k < |s|
      ensures Leq(x, s[k])
    {
      LeqTotalHere(x, s[k]);
    }
  }

  lemma LeqTotalHere(a: string, b: string)
    ensures Leq(a, b) || Leq(b, a)
  {
    LeqTotal(a, b, 0);
  }

  lemma LeqTransitiveAt(s: seq<string>, i: nat, m: nat, x: string)
    requires i <= m < |s| && Sorted(s) && Leq(s[m], x)
    ensures Leq(s[i], x)
  {
    if i < m {
      LeqTransitive(s[i], s[m], x, 0);
    }
  }

  lemma {:induction false} SortSorts(s: seq<string>, n: nat)
    requires n <= |s|
    ensures Sorted(Sort(s, n)) && multiset(Sort(s, n)) == multiset(s[..n])
  {
    if n > 0 {
      SortSorts(s, n - 1);
      var t := Sort(s, n - 1);
      InsertSorts(t, s[n - 1], |t|);
      hide Sorted, Insert;
      assert s[..n] == s[..n - 1] + [s[n - 1]];
    }
  }

  lemma Unfirst(s: seq<string>)
    requires s != []
    ensures multiset(s[1..]) == multiset(s) - multiset{s[0]}
    ensures Sorted(s) ==> Sorted(s[1..])
  {
    assert s == [s[0]] + s[1..];
    hide Leq;
  }

  lemma SameFirst(a: seq<string>, b: seq<string>)
    requires Sorted(a) && Sorted(b) && multiset(a) == multiset(b) && a != [] && b != []
    ensures a[0] == b[0]
  {
    assert a[0] in multiset(b) && b[0] in multiset(a);
    LeastFirst(a, b[0]);
    LeastFirst(b, a[0]);
    hide Sorted;
    LeqAntisymmetric(a[0], b[0], 0);
  }

  /** A sorted list is known by its elements. */
  lemma {:induction false} SortedIsUnique(a: seq<string>, b: seq<string>)
    requires Sorted(a) && Sorted(b) && multiset(a) == multiset(b)
    ensures a == b
  {
    assert |a| == |multiset(a)| == |multiset(b)| == |b|;
    if a != [] {
      SameFirst(a, b);
      Unfirst(a);
      Unfirst(b);
      hide Sorted;
      SortedIsUnique(a[1..], b[1..]);
      assert a == [a[0]] + a[1..] && b == [b[0]] + b[1..];
    }
  }

  lemma LeastFirst(s: seq<string>, x: string)
    requires Sorted(s) && x in s
    ensures Leq(s[0], x)
  {
    LeqTotal(s[0], s[0], 0);
  }

  // ---------- the fingerprint ----------

  predicate IsAuthCookie(name: string) {
    || name == "sess" || name == "_t" || name == "remember" || name == "mvauth" || name == "auth"
    || Contains(Lower(name), "sess") || Contains(Lower(name), "remember")
  }

  function Pair(c: Cookie): string { c.name + "=" + c.value }

  /** name=value of the auth cookies among the first n. */
  function AuthPairs(cs: seq<Cookie>, n: nat): seq<string>
    requires n <= |cs|
  {
    if n == 0 then []
    else if IsAuthCookie(cs[n - 1].name) then AuthPairs(cs, n - 1) + [Pair(cs[n - 1])]
    else AuthPairs(cs, n - 1)
  }

  /** strings.Join(s[..n], "\x00") */
  function Join(s: seq<string>, n: nat): string
    requires n <= |s|
  {
    if n == 0 then "" else if n == 1 then s[0] else Join(s, n - 1) + ['\0'] + s[n - 1]
  }

  /** The fingerprint before hashing; the hash is taken to be injective, and its text is never empty. */
  function Fingerprint(cs: seq<Cookie>): string {
    var pairs := AuthPairs(cs, |cs|);
    Join(Sort(pairs, |pairs|), |pairs|)
  }

  /** The auth cookies, without their order. */
  function AuthOf(cs: seq<Cookie>, n: nat): multiset<Cookie>
    requires n <= |cs|
  {
    if n == 0 then multiset{}
    else if IsAuthCookie(cs[n - 1].name) then AuthOf(cs, n - 1) + multiset{cs[n - 1]}
    else AuthOf(cs, n - 1)
  }

  function Auth(cs: seq<Cookie>): multiset<Cookie> { AuthOf(cs, |cs|) }

  /** A cookie that logs somebody in: by its exact name, or by what its name holds in upper or lower case. */
  ghost predicate LogsIn(c: Cookie) {
    || c.name in ["sess", "_t", "remember", "mvauth", "auth"]
    || (exists a: string, b: string :: Lower(c.name) == a + "sess" + b)
    || (exists a: string, b: string :: Lower(c.name) == a + "remember" + b)
  }

  /** The auth cookies are just those, each as often as it is in the jar. */
  lemma {:induction false} AuthIs(cs: seq<Cookie>, c: Cookie)
    ensures Auth(cs)[c] == if LogsIn(c) then multiset(cs)[c] else 0
  {
    AuthOfIs(cs, |cs|, c);
    assert cs[..|cs|] == cs;
  }

  lemma {:induction false} AuthOfIs(cs: seq<Cookie>, n: nat, c: Cookie)
    requires n <= |cs|
    ensures AuthOf(cs, n)[c] == if LogsIn(c) then multiset(cs[..n])[c] else 0
  {
    if n > 0 {
      AuthOfIs(cs, n - 1, c);
      IsAuthIff(cs[n - 1]);
      assert cs[..n] == cs[..n - 1] + [cs[n - 1]];
      hide IsAuthCookie, LogsIn;
    }
  }

  lemma IsAuthIff(c: Cookie)
    ensures IsAuthCookie(c.name) <==> LogsIn(c)
  {
    ContainsIff(Lower(c.name), "sess");
    ContainsIff(Lower(c.name), "remember");
    hide Lower, Contains;
  }

  lemma ContainsIff(s: string, t: string)
    ensures Contains(s, t) <==> exists a: string, b: string :: s == a + t + b
  {
    if i :| 0 <= i <= |s| && OccursAt(s, t, i) {
      assert s == s[..i] + t + s[i + |t|..];
    }
    if a: string, b: string :| s == a + t + b {
      assert OccursAt(s, t, |a|);
    }
  }

  /** What net/http lets into a jar: no '=' in a name, no NUL anywhere. */
  predicate Sane(c: Cookie) { '=' !in c.name && '\0' !in c.name && '\0' !in c.value }

  predicate AllSane(cs: seq<Cookie>) { forall i :: 0 <= i < |cs| ==> Sane(cs[i]) }

  // ---------- what a fingerprint tells ----------

  predicate Clean(p: string) { p != "" && '\0' !in p }

  predicate AllClean(s: seq<string>) { forall i :: 0 <= i < |s| ==> Clean(s[i]) }

  lemma LastPart(a: string, x: string, b: string, y: string)
    requires a + ['\0'] + x == b + ['\0'] + y && '\0' !in x && '\0' !in y
    ensures a == b && x == y
  {
    var u, v := a + ['\0'] + x, b + ['\0'] + y;
    assert forall k :: |a| < k < |u| ==> u[k] == x[k - |a| - 1];
    assert forall k :: |b| < k < |v| ==> v[k] == y[k - |b| - 1];
    assert u[|a|] == v[|b|] == '\0';
    assert |a| == |b|;
    assert a == u[..|a|] && b == v[..|b|] && x == u[|a| + 1..] && y == v[|b| + 1..];
  }

  lemma JoinHasSeparators(s: seq<string>, n: nat)
    requires 2 <= n <= |s|
    ensures '\0' in Join(s, n)
  {
    var j := Join(s, n - 1);
    assert Join(s, n)[|j|] == '\0';
  }

  lemma {:induction false} JoinNotEmpty(s: seq<string>, n: nat)
    requires 1 <= n <= |s| && AllClean(s)
    ensures Join(s, n) != ""
  {
    assert Clean(s[0]);
  }

  /** Joining loses nothing. */
  lemma {:induction false} JoinInjective(s: seq<string>, t: seq<string>, n: nat, m: nat)
    requires n <= |s| && m <= |t| && AllClean(s) && AllClean(t) && Join(s, n) == Join(t, m)
    ensures n == m && s[..n] == t[..m]
  {
    if n == 0 || m == 0 {
      if n > 0 {
        JoinNotEmpty(s, n);
      }
      if m > 0 {
        JoinNotEmpty(t, m);
      }
    } else if n == 1 || m == 1 {
      assert Clean(s[0]) && Clean(t[0]);
      if n > 1 {
        JoinHasSeparators(s, n);
      }
      if m > 1 {
        JoinHasSeparators(t, m);
      }
    } else {
      assert Clean(s[n - 1]) && Clean(t[m - 1]);
      LastPart(Join(s, n - 1), s[n - 1], Join(t, m - 1), t[m - 1]);
      JoinInjective(s, t, n - 1, m - 1);
      assert s[..n] == s[..n - 1] + [s[n - 1]] && t[..m] == t[..m - 1] + [t[m - 1]];
    }
  }

  lemma PairInjective(c: Cookie, d: Cookie)
    requires '=' !in c.name && '=' !in d.name && Pair(c) == Pair(d)
    ensures c == d
  {
    var u, v := Pair(c), Pair(d);
    assert forall k :: 0 <= k < |c.name| ==> u[k] == c.name[k];
    assert forall k :: 0 <= k < |d.name| ==> v[k] == d.name[k];
    assert u[|c.name|] == v[|d.name|] == '=';
    assert |c.name| == |d.name|;
    assert c.name == u[..|c.name|] && d.name == v[..|d.name|];
    assert c.value == u[|c.name| + 1..] && d.value == v[|d.name| + 1..];
  }

  /** Each auth cookie shows up among the pairs as often as among the cookies. */
  lemma {:induction false} PairCount(cs: seq<Cookie>, n: nat, c: Cookie)
    requires n <= |cs| && AllSane(cs) && Sane(c)
    ensures multiset(AuthPairs(cs, n))[Pair(c)] == AuthOf(cs, n)[c]
  {
    if n > 0 {
      PairCount(cs, n - 1, c);
      assert Sane(cs[n - 1]);
      if Pair(cs[n - 1]) == Pair(c) {
        PairInjective(cs[n - 1], c);
      }
      hide Pair, IsAuthCookie;
    }
  }

  lemma {:induction false} PairsCome(cs: seq<Cookie>, n: nat)
    requires n <= |cs| && AllSane(cs)
    ensures forall p :: p in AuthPairs(cs, n) ==> exists c :: Sane(c) && p == Pair(c)
    ensures AllClean(AuthPairs(cs, n))
    ensures forall c :: c in AuthOf(cs, n) ==> Sane(c)
  {
    if n > 0 {
      PairsCome(cs, n - 1);
      assert Sane(cs[n - 1]);
      PairClean(cs[n - 1]);
      hide Pair, IsAuthCookie, Sane, Clean;
    }
  }

  lemma PairClean(c: Cookie)
    requires Sane(c)
    ensures Clean(Pair(c))
  {}

  lemma SamePairsSameAuth(a: seq<Cookie>, b: seq<Cookie>)
    requires AllSane(a) && AllSane(b) && multiset(AuthPairs(a, |a|)) == multiset(AuthPairs(b, |b|))
    ensures Auth(a) == Auth(b)
  {
    PairsCome(a, |a|);
    PairsCome(b, |b|);
    hide AuthPairs, AuthOf, Pair, Sane, AllSane, AllClean;
    forall c
      ensures Auth(a)[c] == Auth(b)[c]
    {
      if Sane(c) {
        PairCount(a, |a|, c);
        PairCount(b, |b|, c);
      }
    }
  }

  lemma SameAuthSamePairs(a: seq<Cookie>, b: seq<Cookie>)
    requires AllSane(a) && AllSane(b) && Auth(a) == Auth(b)
    ensures multiset(AuthPairs(a, |a|)) == multiset(AuthPairs(b, |b|))
  {
    var p, q := multiset(AuthPairs(a, |a|)), multiset(AuthPairs(b, |b|));
    PairsCome(a, |a|);
    PairsCome(b, |b|);
    hide AuthPairs, AuthOf, Pair, Sane, AllSane, AllClean;
    forall x
      ensures p[x] == q[x]
    {
      if x in p || x in q {
        assert x in AuthPairs(a, |a|) || x in AuthPairs(b, |b|);
        var c :| Sane(c) && x == Pair(c);
        PairCount(a, |a|, c);
        PairCount(b, |b|, c);
      }
    }
  }

  lemma CleanBySet(s: seq<string>, t: seq<string>)
    requires AllClean(s) && multiset(s) == multiset(t)
    ensures AllClean(t)
  {
    forall i | 0 <= i < |t|
      ensures Clean(t[i])
    {
      assert t[i] in multiset(s);
    }
  }

  /** WHAT THE FINGERPRINT IS: two cookie lists have the same one exactly when they hold the same auth cookies, name and
      value; the order and all other cookies do not count. */
  lemma SameFingerprintIff(a: seq<Cookie>, b: seq<Cookie>)
    requires AllSane(a) && AllSane(b)
    ensures Fingerprint(a) == Fingerprint(b) <==> Auth(a) == Auth(b)
  {
    var p, q := AuthPairs(a, |a|), AuthPairs(b, |b|);
    var s, t := Sort(p, |p|), Sort(q, |q|);
    assert p[..|p|] == p && q[..|q|] == q && s[..|p|] == s && t[..|q|] == t;
    SortSorts(p, |p|);
    SortSorts(q, |q|);
    PairsCome(a, |a|);
    PairsCome(b, |b|);
    CleanBySet(p, s);
    CleanBySet(q, t);
    if multiset(p) == multiset(q) {
      SamePairsSameAuth(a, b);
    }
    if Auth(a) == Auth(b) {
      SameAuthSamePairs(a, b);
    }
    hide Sort, Sorted, AllClean, AuthPairs, Auth;
    if Fingerprint(a) == Fingerprint(b) {
      JoinInjective(s, t, |p|, |q|);
    }
    if multiset(p) == multiset(q) {
      SortedIsUnique(s, t);
    }
  }

  // ---------- saving and clearing ----------

  /** The durable row; every cookie of the jar goes into it. */
  datatype Row = Row(user: string, pass: string, cookies: seq<Cookie>)

  /** `last` is lastCookieFingerprint, None for the empty string. */
  datatype State = State(jar: seq<Cookie>, last: Option<string>, row: Option<Row>)

  datatype Account = Account(user: string, pass: string)

  predicate Skips(s: State) { s.last == Some(Fingerprint(s.jar)) }

  function Saved(u: Account, s: State, writeOk: bool): State {
    if Skips(s) || !writeOk then s
    else s.(row := Some(Row(u.user, u.pass, s.jar)), last := Some(Fingerprint(s.jar)))
  }

  function Cleared(s: State, deleteOk: bool): State {
    State([], None, if deleteOk then None else s.row)
  }

  class ForumScraper {
    const account: Account
    const hasStore: bool
    var jar: seq<Cookie>
    var lastCookieFingerprint: Option<string>
    var row: Option<Row>

    constructor (account: Account, hasStore: bool, row: Option<Row>)
      ensures this.account == account && this.hasStore == hasStore && Now() == State([], None, row)
    {
      this.account, this.hasStore, this.row := account, hasStore, row;
      jar, lastCookieFingerprint := [], None;
    }

    function Now(): State
      reads this
    {
      State(jar, lastCookieFingerprint, row)
    }

    method AuthCookieFingerprint(cookies: seq<Cookie>) returns (fp: string)
      ensures fp == Fingerprint(cookies)
    {
      var pairs := [];
      for i := 0 to |cookies|
        invariant pairs == AuthPairs(cookies, i)
      {
        if IsAuthCookie(cookies[i].name) {
          pairs := pairs + [cookies[i].name + "=" + cookies[i].value];
        }
      }
      fp := Join(Sort(pairs, |pairs|), |pairs|);
    }

    method SaveSession(writeOk: bool)
      modifies this`row, this`lastCookieFingerprint
      ensures Now() == if hasStore then Saved(account, old(Now()), writeOk) else old(Now())
    {
      if !hasStore {
        return;
      }
      var cookies := jar;
      var fp := AuthCookieFingerprint(cookies);
      if lastCookieFingerprint.Some? && lastCookieFingerprint.value == fp {
        return;
      }
      if !writeOk {
        return;
      }
      row := Some(Row(account.user, account.pass, cookies));
      lastCookieFingerprint := Some(fp);
    }

    method ClearSession(deleteOk: bool)
      modifies this
      ensures Now() == Cleared(old(Now()), hasStore && deleteOk)
    {
      if hasStore && deleteOk {
        row := None;
      }
      lastCookieFingerprint := None;
      jar := [];
    }
  }

  // ---------- runs of one scraper, the only writer of its row ----------

  /** Save, Clear, or a response that left these cookies in the jar. */
  datatype Op = Save(writeOk: bool) | Clear(deleteOk: bool) | Respond(cookies: seq<Cookie>)

  function After(u: Account, s: State, o: Op): State {
    match o
    case Save(ok) => Saved(u, s, ok)
    case Clear(ok) => Cleared(s, ok)
    case Respond(cookies) => s.(jar := cookies)
  }

  /** The state before operation n, with no record loaded at the start. */
  function StateAt(u: Account, row: Option<Row>, ops: seq<Op>, n: nat): State
    requires n <= |ops|
  {
    if n == 0 then State([], None, row) else After(u, StateAt(u, row, ops, n - 1), ops[n - 1])
  }

  /** The jar at the last save that wrote, if nothing was cleared since. */
  function LastWritten(u: Account, row: Option<Row>, ops: seq<Op>, n: nat): Option<seq<Cookie>>
    requires n <= |ops|
  {
    if n == 0 then None
    else
      var s := StateAt(u, row, ops, n - 1);
      match ops[n - 1]
      case Save(ok) => if ok && !Skips(s) then Some(s.jar) else LastWritten(u, row, ops, n - 1)
      case Clear(_) => None
      case Respond(_) => LastWritten(u, row, ops, n - 1)
  }

  predicate SaneOps(ops: seq<Op>) {
    forall i :: 0 <= i < |ops| && ops[i].Respond? ==> AllSane(ops[i].cookies)
  }

  lemma {:induction false} JarIsSane(u: Account, row: Option<Row>, ops: seq<Op>, n: nat)
    requires n <= |ops| && SaneOps(ops)
    ensures AllSane(StateAt(u, row, ops, n).jar)
    ensures LastWritten(u, row, ops, n).Some? ==> AllSane(LastWritten(u, row, ops, n).value)
  {
    hide AllSane, Skips;
    if n > 0 {
      JarIsSane(u, row, ops, n - 1);
    } else {
      NothingIsSane();
    }
    NothingIsSane();
  }

  lemma NothingIsSane()
    ensures AllSane([])
  {}

  /** THE ROW MATCHES THE FINGERPRINT. After any run: a fingerprint is remembered exactly when some save wrote since the
      last clear; then the row holds the cookies of that save, and the fingerprint is theirs. */
  lemma {:induction false} RowMatches(u: Account, row: Option<Row>, ops: seq<Op>, n: nat)
    requires n <= |ops|
    ensures var s, w := StateAt(u, row, ops, n), LastWritten(u, row, ops, n);
            && (s.last.Some? <==> w.Some?)
            && (w.Some? ==> s.row == Some(Row(u.user, u.pass, w.value)) && s.last == Some(Fingerprint(w.value)))
  {
    hide Fingerprint;
    if n > 0 {
      RowMatches(u, row, ops, n - 1);
    }
  }

  /** A save leaves the row with exactly the auth cookies of the jar, unless its write failed; and it writes exactly when
      the auth cookies are not those of the last save that wrote. */
  lemma SaveKeepsRowCurrent(u: Account, row: Option<Row>, ops: seq<Op>, n: nat, writeOk: bool)
    requires n <= |ops| && SaneOps(ops)
    ensures var s := StateAt(u, row, ops, n);
            var s', w := Saved(u, s, writeOk), LastWritten(u, row, ops, n);
            && (writeOk || Skips(s) ==> s'.row.Some? && Auth(s'.row.value.cookies) == Auth(s.jar))
            && (Skips(s) <==> w.Some? && Auth(w.value) == Auth(s.jar))
            && (!writeOk ==> s' == s)
  {
    var s, w := StateAt(u, row, ops, n), LastWritten(u, row, ops, n);
    RowMatches(u, row, ops, n);
    JarIsSane(u, row, ops, n);
    if w.Some? {
      SameFingerprintIff(w.value, s.jar);
    }
    hide Fingerprint, Auth, AllSane, StateAt, LastWritten;
  }

  /** A failed write is made up for by the next save, and a successful one leaves the next save nothing to do. */
  lemma RetriedNotRepeated(u: Account, s: State, ok: bool)
    ensures Saved(u, Saved(u, s, false), ok) == Saved(u, s, ok)
    ensures Saved(u, Saved(u, s, true), ok) == Saved(u, s, true) && Skips(Saved(u, s, true))
  {}

  /** A cleared session is gone, in the jar and in the store, until something is saved again; and what is saved next is
      written, even if it is what was there before. */
  lemma {:induction false} ClearedStaysGone(u: Account, row: Option<Row>, ops: seq<Op>, n: nat, m: nat)
    requires n < m <= |ops| && ops[n] == Clear(true) && forall k :: n < k < m ==> ops[k] != Save(true)
    ensures var s := StateAt(u, row, ops, m);
            && s.row == None && s.last == None && (m == n + 1 ==> s.jar == [])
            && Saved(u, s, true).row == Some(Row(u.user, u.pass, s.jar))
    decreases m
  {
    hide Fingerprint;
    if n + 1 < m {
      ClearedStaysGone(u, row, ops, n, m - 1);
    }
  }

  /** If the delete fails the row stays as it was, but it is not taken for current. */
  lemma ClearFails(u: Account, s: State)
    ensures var s' := After(u, s, Clear(false)); s'.row == s.row && s'.jar == [] && !Skips(s')
  {
    hide Fingerprint;
  }
}
