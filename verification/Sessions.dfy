/** Account sessions: which token owns the one session of an account, how duplicates are folded onto it, and which client
    a bearer token resolves to. */
module Sessions {
  import opened Common

  /** Tokens are only compared, for equality and in their order, so they are numbers. */
  type Id = nat

  const NO_ID: Id := 0

  datatype Status = Pending | GuardRequired | Authenticated

  /** A live session: the user name of its scraper, if it has one. */
  datatype Session = Session(scraper: Option<string>, status: Status)

  datatype Record = Record(user: string)

  /** The live sessions, and the tables of durable sessions, app aliases and watch tokens. */
  datatype State = State(sessions: map<Id, Session>, records: map<Id, Record>, aliases: map<Id, Id>, watch: map<Id, Id>)

  /** What the store does during one call: reads that fail (of a session, an app alias, a watch token, of the whole
      session table), records with usable cookies or credentials, writes that fail. */
  datatype Weather = Weather(unreadable: set<Id>, unreadableAlias: set<Id>, unreadableWatch: set<Id>, unlistable: bool,
                             restorable: set<Id>, unaliasable: set<Id>, undeletable: set<Id>)

  predicate EqualFold(s: string, t: string) { Lower(s) == Lower(t) }

  // ---------- the canonical session of an account ----------

  predicate Matches(ss: map<Id, Session>, user: string, id: Id) {
    id in ss && ss[id].status == Authenticated && ss[id].scraper.Some? && EqualFold(ss[id].scraper.value, user)
  }

  /** API tokens come before app tokens; within each, the smaller id comes first. */
  predicate Before(api: set<Id>, a: Id, b: Id) {
    (a in api && b !in api) || ((a in api <==> b in api) && a <= b)
  }

  ghost predicate Best(ss: map<Id, Session>, api: set<Id>, user: string, among: set<Id>, r: Option<Id>) {
    && (r.Some? ==> r.value in among && Matches(ss, user, r.value))
    && (forall id :: id in among && Matches(ss, user, id) ==> r.Some? && Before(api, r.value, id))
  }

  /** The answer does not depend on the order in which the map is walked: there is only one. */
  lemma {:induction false} BestIsUnique(ss: map<Id, Session>, api: set<Id>, user: string, r: Option<Id>, r': Option<Id>)
    requires Best(ss, api, user, ss.Keys, r) && Best(ss, api, user, ss.Keys, r')
    ensures r == r'
  {
    if r.Some? && r'.Some? {
      assert Before(api, r.value, r'.value) && Before(api, r'.value, r.value);
    }
  }

  /** An authenticated session of that user, upper and lower case being one. */
  predicate LoggedInAs(ss: map<Id, Session>, user: string, id: Id) {
    id in ss && ss[id].status == Authenticated && ss[id].scraper.Some? && Lower(ss[id].scraper.value) == Lower(user)
  }

  /** The least API token logged in as the user, or the least token at all when no API token is. */
  lemma {:induction false} BestMeans(ss: map<Id, Session>, api: set<Id>, user: string, r: Option<Id>)
    requires Best(ss, api, user, ss.Keys, r)
    ensures r.None? <==> forall id :: !LoggedInAs(ss, user, id)
    ensures r.Some? ==> LoggedInAs(ss, user, r.value)
    ensures r.Some? && (exists id :: id in api && LoggedInAs(ss, user, id)) ==>
              r.value in api && forall id :: id in api && LoggedInAs(ss, user, id) ==> r.value <= id
    ensures r.Some? && !(exists id :: id in api && LoggedInAs(ss, user, id)) ==>
              r.value !in api && forall id :: LoggedInAs(ss, user, id) ==> r.value <= id
  {
    forall id
      ensures Matches(ss, user, id) <==> LoggedInAs(ss, user, id)
      ensures Matches(ss, user, id) ==> id in ss.Keys
    {}
  }

  // ---------- reconciliation ----------

  /** An API token with a live session for the account with this lower-case name; its status is not looked at. */
  predicate Serves(ss: map<Id, Session>, api: set<Id>, u: string, id: Id) {
    id in ss && ss[id].scraper.Some? && id in api && u != "" && Lower(ss[id].scraper.value) == u
  }

  ghost predicate IsOwner(ss: map<Id, Session>, api: set<Id>, u: string, id: Id) {
    Serves(ss, api, u, id) && forall o :: Serves(ss, api, u, o) ==> id <= o
  }

  ghost predicate Duplicate(s: State, api: set<Id>, id: Id) {
    id in s.records && id !in api && exists o :: IsOwner(s.sessions, api, Lower(s.records[id].user), o)
  }

  ghost function Duplicates(s: State, api: set<Id>): set<Id> {
    set id | id in s.records && Duplicate(s, api, id)
  }

  ghost function OwnerOf(s: State, api: set<Id>, id: Id): Id
    requires Duplicate(s, api, id)
  {
    var o :| IsOwner(s.sessions, api, Lower(s.records[id].user), o); o
  }

  lemma OwnerIs(s: State, api: set<Id>, id: Id, o: Id)
    requires id in s.records && id !in api && IsOwner(s.sessions, api, Lower(s.records[id].user), o)
    ensures Duplicate(s, api, id) && OwnerOf(s, api, id) == o
  {
    var p := OwnerOf(s, api, id);
    assert Serves(s.sessions, api, Lower(s.records[id].user), p);
    assert Serves(s.sessions, api, Lower(s.records[id].user), o);
  }

  ghost predicate CanonicalMap(ss: map<Id, Session>, api: set<Id>, m: map<string, Id>) {
    && (forall u :: u in m ==> IsOwner(ss, api, u, m[u]))
    && (forall u, o :: Serves(ss, api, u, o) ==> u in m)
  }

  lemma DuplicateIff(s: State, api: set<Id>, m: map<string, Id>, id: Id)
    requires CanonicalMap(s.sessions, api, m) && id in s.records
    ensures var u := Lower(s.records[id].user);
            && (id in Duplicates(s, api) <==> id !in api && u in m)
            && (u in m ==> m[u] in api)
            && (id in Duplicates(s, api) ==> Duplicate(s, api, id) && OwnerOf(s, api, id) == m[u])
  {
    var u := Lower(s.records[id].user);
    if u in m && id !in api {
      OwnerIs(s, api, id, m[u]);
    }
  }

  /** The state once the duplicates in `done` have been folded. */
  ghost function Folded(s: State, api: set<Id>, done: set<Id>, w: Weather): State
    requires done <= Duplicates(s, api)
  {
    State(s.sessions - done, s.records - (done - w.undeletable),
          map id | id in s.aliases.Keys + (done - w.unaliasable) ::
            if id in done - w.unaliasable then OwnerOf(s, api, id) else s.aliases[id],
          s.watch)
  }

  function FoldedOne(s: State, id: Id, owner: Id, w: Weather): State {
    s.(sessions := s.sessions - {id},
       records := if id in w.undeletable then s.records else s.records - {id},
       aliases := if id in w.unaliasable then s.aliases else s.aliases[id := owner])
  }

  ghost function Reconciled(s: State, api: set<Id>, w: Weather): State {
    Folded(s, api, Duplicates(s, api), w)
  }

  // ---------- lookup and the middleware ----------

  datatype Found = Live | NoSession | Unavailable

  function LookedUp(s: State, id: Id, w: Weather): Found {
    if id in s.sessions then Live
    else if id in w.unreadable then Unavailable
    else if id in s.records && id in w.restorable then Live
    else NoSession
  }

  datatype Answer = As(client: Id) | Unauthorized | Retry

  function AliasOwner(s: State, token: Id, w: Weather): Option<Id> {
    if token !in w.unreadableAlias && token in s.aliases then Some(s.aliases[token])
    else if token !in w.unreadableWatch && token in s.watch then Some(s.watch[token])
    else None
  }

  /** The client a bearer token stands for. */
  function Answered(s: State, valid: set<Id>, token: Id, w: Weather): Answer {
    if token in valid then As(token)
    else match LookedUp(s, token, w)
      case Unavailable => Retry
      case Live => As(token)
      case NoSession =>
        var owner := AliasOwner(s, token, w);
        match LookedUp(s, if owner.Some? then owner.value else NO_ID, w)
        case Unavailable => Retry
        case Live => if owner.Some? then As(owner.value) else Unauthorized
        case NoSession => Unauthorized
  }

  /** A session of its own: in memory, or readable and restorable from its record. */
  predicate OwnSession(s: State, id: Id, w: Weather) {
    id in s.sessions || (id !in w.unreadable && id in s.records && id in w.restorable)
  }

  /** The store cannot say whether there is one. */
  predicate Unknown(s: State, id: Id, w: Weather) { id !in s.sessions && id in w.unreadable }

  /** The token is an alias, as far as the store can be read. */
  predicate IsAlias(s: State, token: Id, w: Weather) { token in s.aliases && token !in w.unreadableAlias }

  predicate IsWatch(s: State, token: Id, w: Weather) { token in s.watch && token !in w.unreadableWatch }

  /** The token borrows the session of `owner`: as an alias, or else as a watch token. */
  predicate Borrows(s: State, token: Id, w: Weather, owner: Id) {
    || (IsAlias(s, token, w) && s.aliases[token] == owner)
    || (!IsAlias(s, token, w) && IsWatch(s, token, w) && s.watch[token] == owner)
  }

  /** WHOM A TOKEN STANDS FOR, under every failure of the store. A configured API token stands for itself, always. Any other
      one stands for itself with a session of its own, and for the owner whose session it borrows without one, an alias
      coming before a watch entry; it is told to retry when the store cannot say whether there is such a session (or,
      borrowing none, whether the empty token has one), and refused otherwise. */
  lemma {:induction false} AnswerLaw(s: State, valid: set<Id>, token: Id, w: Weather)
    ensures token in valid ==> Answered(s, valid, token, w) == As(token)
    ensures token !in valid && OwnSession(s, token, w) ==> Answered(s, valid, token, w) == As(token)
    ensures token !in valid && Unknown(s, token, w) ==> Answered(s, valid, token, w) == Retry
    ensures token !in valid && !OwnSession(s, token, w) && !Unknown(s, token, w) ==>
              && (forall o :: Borrows(s, token, w, o) ==>
                    Answered(s, valid, token, w)
                    == if OwnSession(s, o, w) then As(o) else if Unknown(s, o, w) then Retry else Unauthorized)
              && (!IsAlias(s, token, w) && !IsWatch(s, token, w) ==>
                    Answered(s, valid, token, w) == if Unknown(s, NO_ID, w) then Retry else Unauthorized)
    ensures forall c :: Answered(s, valid, token, w) == As(c) ==> c in valid || OwnSession(s, c, w)
  {}

  // ---------- what reconciliation achieves ----------

  /** Token id has a durable session of the account that API token o serves live. */
  predicate ServedBy(s: State, api: set<Id>, id: Id, o: Id) {
    && id in s.records && id !in api && o in s.sessions && o in api && s.sessions[o].scraper.Some?
    && Lower(s.sessions[o].scraper.value) == Lower(s.records[id].user) != ""
  }

  lemma {:induction false} LeastServer(s: State, api: set<Id>, u: string, o: Id)
    requires Serves(s.sessions, api, u, o)
    ensures exists p :: IsOwner(s.sessions, api, u, p)
    decreases o
  {
    if p: Id :| p < o && Serves(s.sessions, api, u, p) {
      LeastServer(s, api, u, p);
    } else {
      assert IsOwner(s.sessions, api, u, o);
    }
  }

  /** ONE SESSION PER ACCOUNT. Whatever is written and whatever fails: a token loses its live session exactly when an API
      token serves its account, and its record too unless the delete failed; its alias then names the least such API
      token unless that write failed; and nothing else changes. */
  lemma {:induction false} OneSessionPerAccount(s: State, api: set<Id>, w: Weather, id: Id)
    ensures var s', folded := Reconciled(s, api, w), exists o :: ServedBy(s, api, id, o);
            && (id in s'.sessions <==> id in s.sessions && !folded)
            && (id in s'.sessions ==> s'.sessions[id] == s.sessions[id])
            && (id in s'.records <==> id in s.records && !(folded && id !in w.undeletable))
            && (id in s'.records ==> s'.records[id] == s.records[id])
            && (folded && id !in w.unaliasable ==>
                  id in s'.aliases && ServedBy(s, api, id, s'.aliases[id])
                  && forall o :: ServedBy(s, api, id, o) ==> s'.aliases[id] <= o)
            && (!folded || id in w.unaliasable ==>
                  (id in s'.aliases <==> id in s.aliases) && (id in s.aliases ==> s'.aliases[id] == s.aliases[id]))
            && s'.watch == s.watch
  {
    FoldedIff(s, api, id);
    if id in Duplicates(s, api) {
      var owner := OwnerOf(s, api, id);
      assert ServedBy(s, api, id, owner);
      forall o | ServedBy(s, api, id, o)
        ensures owner <= o
      {
        assert Serves(s.sessions, api, Lower(s.records[id].user), o);
      }
    }
    hide Duplicates, OwnerOf, ServedBy;
  }

  lemma FoldedIff(s: State, api: set<Id>, id: Id)
    ensures id in Duplicates(s, api) <==> exists o :: ServedBy(s, api, id, o)
  {
    if o :| ServedBy(s, api, id, o) {
      LeastServer(s, api, Lower(s.records[id].user), o);
    }
    if id in Duplicates(s, api) {
      assert ServedBy(s, api, id, OwnerOf(s, api, id));
    }
  }

  lemma ReconciledDuplicates(s: State, api: set<Id>, w: Weather)
    ensures Duplicates(Reconciled(s, api, w), api) == Duplicates(s, api) * w.undeletable
  {
    var s', d := Reconciled(s, api, w), Duplicates(s, api);
    forall u, o
      ensures Serves(s'.sessions, api, u, o) <==> Serves(s.sessions, api, u, o)
    {}
    forall u, o
      ensures IsOwner(s'.sessions, api, u, o) <==> IsOwner(s.sessions, api, u, o)
    {}
    forall id
      ensures id in Duplicates(s', api) <==> id in d * w.undeletable
    {}
  }

  /** RECONCILIATION WORKS. With successful writes no durable session of an account with a live API session is left beside
      it, in memory or in the store; a second run finds nothing and changes nothing. */
  lemma SecondRunFindsNothing(s: State, api: set<Id>, w: Weather, w': Weather)
    ensures var s' := Reconciled(s, api, w);
            && (Duplicates(s', api) == {} <==> Duplicates(s, api) !! w.undeletable)
            && (Duplicates(s, api) !! w.undeletable ==> Reconciled(s', api, w') == s')
            && forall id :: id in Duplicates(s, api) ==> id !in s'.sessions && (id in s'.records <==> id in w.undeletable)
  {
    ReconciledDuplicates(s, api, w);
    if Duplicates(s, api) !! w.undeletable {
      var s' := Reconciled(s, api, w);
      assert Duplicates(s', api) == {};
      assert Reconciled(s', api, w') == Folded(s', api, {}, w');
      FoldNothing(s', api, w');
    }
    NoCommon(Duplicates(s, api), w.undeletable);
  }

  lemma NoCommon(a: set<Id>, b: set<Id>)
    ensures a * b == {} <==> a !! b
  {
    if a * b == {} {
      forall x | x in a
        ensures x !in b
      {
        assert x !in a * b;
      }
    }
  }

  lemma FoldNothing(s: State, api: set<Id>, w: Weather)
    ensures Folded(s, api, {}, w) == s
  {
    assert Folded(s, api, {}, w).aliases == s.aliases;
  }

  /** WHEN A FOLDED TOKEN RESOLVES. Whatever writes failed, it resolves to the least API token of its account exactly when
      its durable record is gone or cannot be restored, and its alias was written or named that owner already (the
      store being readable). */
  lemma {:induction false} FoldedTokenResolves(s: State, api: set<Id>, w: Weather, r: Weather, id: Id)
    requires id in Duplicates(s, api) && id !in r.unreadable && id !in r.unreadableAlias
    ensures var s', owner := Reconciled(s, api, w), OwnerOf(s, api, id);
            && IsOwner(s.sessions, api, Lower(s.records[id].user), owner)
            && (Answered(s', api, id, r) == As(owner) <==>
                  (id !in w.undeletable || id !in r.restorable)
                  && (id !in w.unaliasable || AliasOwner(s, id, r) == Some(owner)))
  {
    var owner := OwnerOf(s, api, id);
    assert owner in api && owner in s.sessions;
    assert owner !in Duplicates(s, api);
  }

  /** WHEN A FOLDED TOKEN IS TURNED AWAY. The session is dropped even if writing its alias failed. With a readable store,
      the token is then refused exactly when its record is gone too and no alias or watch entry of old leads to a
      session. */
  lemma {:induction false} LostAlias(s: State, api: set<Id>, w: Weather, r: Weather, id: Id)
    requires id in Duplicates(s, api) && r.unreadable == {} && r.unreadableAlias == {}
    ensures var s', old' := Reconciled(s, api, w), AliasOwner(s, id, r);
            Answered(s', api, id, r) == Unauthorized <==>
              && id in w.unaliasable && (id !in w.undeletable || id !in r.restorable)
              && (old'.Some? ==> LookedUp(s', old'.value, r).NoSession?)
  {
    var owner := OwnerOf(s, api, id);
    assert owner in api && owner in s.sessions;
    assert owner !in Duplicates(s, api);
  }

  /** Whose session a token without one of its own is looked up under. */
  function Behind(s: State, token: Id, r: Weather): Id {
    if AliasOwner(s, token, r).Some? then AliasOwner(s, token, r).value else NO_ID
  }

  /** Looking up a duplicate gives the same as before it was folded. */
  predicate FoldedUnseen(s: State, id: Id, w: Weather, r: Weather) {
    if id in r.unreadable then id !in s.sessions
    else (id in s.sessions || id in r.restorable) <==> (id in w.undeletable && id in r.restorable)
  }

  /** WHICH OTHER TOKENS NOTICE. A token that was not folded gets the answer it got before exactly when it is valid or has
      a session of its own, or its owner was not folded, or the fold of its owner does not show: the owner's session
      can still be restored, or could not be found before either. */
  lemma {:induction false} OtherTokensUnchanged(s: State, api: set<Id>, w: Weather, r: Weather, token: Id)
    requires token !in Duplicates(s, api)
    ensures Answered(Reconciled(s, api, w), api, token, r) == Answered(s, api, token, r) <==>
            || token in api || !LookedUp(s, token, r).NoSession?
            || Behind(s, token, r) !in Duplicates(s, api)
            || FoldedUnseen(s, Behind(s, token, r), w, r)
            || (AliasOwner(s, token, r).None? && NO_ID !in r.unreadable)
  {
    var s' := Reconciled(s, api, w);
    assert forall id :: id !in Duplicates(s, api) ==> LookedUp(s', id, r) == LookedUp(s, id, r);
    assert AliasOwner(s', token, r) == AliasOwner(s, token, r);
    var x := Behind(s, token, r);
    if x in Duplicates(s, api) {
      FoldedLookup(s, api, w, r, x);
    }
  }

  lemma FoldedLookup(s: State, api: set<Id>, w: Weather, r: Weather, id: Id)
    requires id in Duplicates(s, api)
    ensures LookedUp(Reconciled(s, api, w), id, r)
            == if id in r.unreadable then Unavailable
               else if id in w.undeletable && id in r.restorable then Live
               else NoSession
  {}

  /** Aliases are one level deep: what a token gets that has no session of its own and is an alias of a folded token. */
  lemma {:induction false} AliasChainBreaks(s: State, api: set<Id>, w: Weather, r: Weather, token: Id)
    requires token !in api && token !in Duplicates(s, api) && LookedUp(s, token, r).NoSession?
    requires AliasOwner(s, token, r).Some? && AliasOwner(s, token, r).value in Duplicates(s, api)
    ensures var owner := AliasOwner(s, token, r).value;
            Answered(Reconciled(s, api, w), api, token, r)
            == if owner in r.unreadable then Retry
               else if owner in w.undeletable && owner in r.restorable then As(owner)
               else Unauthorized
  {
    FoldedLookup(s, api, w, r, AliasOwner(s, token, r).value);
    assert LookedUp(Reconciled(s, api, w), token, r) == LookedUp(s, token, r);
    hide Duplicates, Reconciled;
  }

  /** One account, served by API token 1 and by device token 5; watch token 9 was paired with the device. */
  const TWO_SESSIONS := State(map[1 := Session(Some("ann"), Authenticated), 5 := Session(Some("ann"), Authenticated)],
                              map[1 := Record("ann"), 5 := Record("ann")], map[], map[9 := 5])

  const FAIR := Weather({}, {}, {}, false, {}, {}, {})

  lemma FiveIsDuplicate()
    ensures Duplicates(TWO_SESSIONS, {1}) == {5} && OwnerOf(TWO_SESSIONS, {1}, 5) == 1
  {
    var s := TWO_SESSIONS;
    assert s.sessions[1].scraper.value == s.records[5].user == "ann";
    assert IsOwner(s.sessions, {1}, Lower("ann"), 1) by {
      assert |Lower("ann")| == 3;
    }
    OwnerIs(s, {1}, 5, 1);
    forall id | id in Duplicates(s, {1})
      ensures id == 5
    {}
  }

  /** The alias of token 5 cannot be written: it was served before and is refused afterwards. */
  lemma LostAliasExample()
    ensures var w := FAIR.(unaliasable := {5});
            && Answered(TWO_SESSIONS, {1}, 5, FAIR) == As(5)
            && Answered(Reconciled(TWO_SESSIONS, {1}, w), {1}, 5, FAIR) == Unauthorized
  {
    FiveIsDuplicate();
    LostAlias(TWO_SESSIONS, {1}, FAIR.(unaliasable := {5}), FAIR, 5);
  }

  /** Everything succeeds: token 5 now stands for token 1, and watch 9, paired with 5, is refused. */
  lemma AliasChainExample()
    ensures var s' := Reconciled(TWO_SESSIONS, {1}, FAIR);
            && Answered(s', {1}, 5, FAIR) == As(1)
            && Answered(TWO_SESSIONS, {1}, 9, FAIR) == As(5) && Answered(s', {1}, 9, FAIR) == Unauthorized
  {
    FiveIsDuplicate();
    FoldedTokenResolves(TWO_SESSIONS, {1}, FAIR, FAIR, 5);
    AliasChainBreaks(TWO_SESSIONS, {1}, FAIR, FAIR, 9);
  }

  /** The live sessions after a lookup of id: a restorable one is brought back. */
  function Woken(s: State, id: Id, w: Weather): map<Id, Session> {
    if id !in s.sessions && OwnSession(s, id, w) then s.sessions[id := Session(Some(s.records[id].user), Authenticated)]
    else s.sessions
  }

  // ---------- the code ----------

  class SessionStore {
    var sessions: map<Id, Session>
    var records: map<Id, Record>
    var aliases: map<Id, Id>
    var watch: map<Id, Id>

    constructor ()
      ensures Now() == State(map[], map[], map[], map[])
    {
      sessions, records, aliases, watch := map[], map[], map[], map[];
    }

    function Now(): State
      reads this
    {
      State(sessions, records, aliases, watch)
    }

    /** Looks in memory first, then tries to bring the durable record back to life. */
    method Lookup(id: Id, w: Weather) returns (found: Found)
      modifies this`sessions
      ensures found == LookedUp(old(Now()), id, w)
      ensures found.Live? <==> OwnSession(old(Now()), id, w)
      ensures found.Unavailable? <==> Unknown(old(Now()), id, w)
      ensures sessions == Woken(old(Now()), id, w)
    {
      if id in sessions {
        return Live;
      }
      if id in w.unreadable {
        return Unavailable;
      }
      if id !in records || id !in w.restorable {
        return NoSession;
      }
      sessions := sessions[id := Session(Some(records[id].user), Authenticated)];
      return Live;
    }

    /** The middleware: a token stands for itself if it is an API token or has a session, else for its alias's owner. */
    method Authorize(bearer: Option<Id>, valid: set<Id>, w: Weather) returns (a: Answer)
      modifies this`sessions
      ensures a == if bearer.None? then Unauthorized else Answered(old(Now()), valid, bearer.value, w)
      ensures bearer.None? || bearer.value in valid ==> sessions == old(sessions)
      ensures bearer.Some? && bearer.value !in valid ==>
                var s, token := old(Now()), bearer.value;
                sessions == Woken(s, if OwnSession(s, token, w) || Unknown(s, token, w) then token
                                     else Behind(s, token, w), w)
      ensures a.As? ==> a.client in valid || a.client in sessions
      ensures forall id :: id in sessions && id !in old(sessions) ==>
                id in records && sessions[id].status == Authenticated && sessions[id].scraper == Some(records[id].user)
    {
      if bearer.None? {
        return Unauthorized;
      }
      var token := bearer.value;
      var clientID := token;
      if token !in valid {
        var sess := Lookup(token, w);
        if sess.Unavailable? {
          return Retry;
        }
        if sess.NoSession? {
          var owner, ok := NO_ID, false;
          if token !in w.unreadableAlias && token in aliases {
            owner, ok := aliases[token], true;
          }
          if !ok && token !in w.unreadableWatch && token in watch {
            owner, ok := watch[token], true;
          }
          var ownerSess := Lookup(owner, w);
          if ownerSess.Unavailable? {
            return Retry;
          }
          if !ok || ownerSess.NoSession? {
            return Unauthorized;
          }
          clientID := owner;
        }
      }
      return As(clientID);
    }

    /** The walk over the map may take any order; `api` is None when no predicate is given. */
    method CanonicalForUser(user: string, api: Option<set<Id>>) returns (canonical: Option<Id>)
      ensures Best(sessions, if api.Some? then api.value else {}, user, sessions.Keys, canonical)
    {
      canonical := None;
      var isApi := if api.Some? then api.value else {};
      var todo := sessions.Keys;
      while todo != {}
        invariant todo <= sessions.Keys && Best(sessions, isApi, user, sessions.Keys - todo, canonical)
        decreases |todo|
      {
        var id :| id in todo;
        todo := todo - {id};
        var s := sessions[id];
        if s.status != Authenticated || s.scraper.None? {
          continue;
        }
        if !EqualFold(s.scraper.value, user) {
          continue;
        }
        if canonical.None? {
          canonical := Some(id);
        } else if api.Some? && id in isApi && canonical.value !in isApi {
          canonical := Some(id);
        } else if (api.None? || (id in isApi <==> canonical.value in isApi)) && id < canonical.value {
          canonical := Some(id);
        }
      }
    }

    method CanonicalByUser(api: set<Id>) returns (m: map<string, Id>)
      ensures CanonicalMap(sessions, api, m)
    {
      m := map[];
      var todo := sessions.Keys;
      while todo != {}
        invariant todo <= sessions.Keys
        invariant forall u :: u in m ==> Serves(sessions, api, u, m[u])
        invariant forall u, o :: Serves(sessions, api, u, o) && o !in todo ==> u in m && m[u] <= o
        decreases |todo|
      {
        var id :| id in todo;
        todo := todo - {id};
        var s := sessions[id];
        if s.scraper.None? || id !in api {
          continue;
        }
        var u := Lower(s.scraper.value);
        if u == "" {
          continue;
        }
        if u !in m || id < m[u] {
          m := m[u := id];
        }
      }
    }

    method DropSession(id: Id, w: Weather)
      modifies this`sessions, this`records
      ensures sessions == old(sessions) - {id}
      ensures records == if id in w.undeletable then old(records) else old(records) - {id}
    {
      sessions := sessions - {id};
      if id !in w.undeletable {
        records := records - {id};
      }
    }

    /** The rows of the session table, in any order. */
    method AllSessions() returns (rows: seq<(Id, Record)>)
      ensures Lists(rows, records)
    {
      rows := [];
      var todo := records.Keys;
      while todo != {}
        invariant todo <= records.Keys
        invariant forall i :: 0 <= i < |rows| ==> rows[i].0 in records && rows[i].0 !in todo && records[rows[i].0] == rows[i].1
        invariant forall i, j :: 0 <= i < j < |rows| ==> rows[i].0 != rows[j].0
        invariant forall id :: id in records && id !in todo ==> exists i :: 0 <= i < |rows| && rows[i].0 == id
        decreases |todo|
      {
        var id :| id in todo;
        todo := todo - {id};
        ghost var before := rows;
        rows := rows + [(id, records[id])];
        assert rows[|before|].0 == id;
        assert forall i :: 0 <= i < |before| ==> rows[i] == before[i];
      }
    }

    /** Re-points a duplicate's token at the owner and retires its session. */
    method Fold(id: Id, owner: Id, w: Weather)
      modifies this`sessions, this`records, this`aliases
      ensures Now() == FoldedOne(old(Now()), id, owner, w)
    {
      if id !in w.unaliasable {
        aliases := aliases[id := owner];
      }
      DropSession(id, w);
    }

    method ReconcileAccountSessions(api: set<Id>, w: Weather) returns (collapsed: nat)
      modifies this`sessions, this`records, this`aliases
      ensures w.unlistable ==> Now() == old(Now()) && collapsed == 0
      ensures !w.unlistable ==> Now() == Reconciled(old(Now()), api, w) && collapsed == |Duplicates(old(Now()), api)|
    {
      ghost var s := Now();
      var canonicalByUser := CanonicalByUser(api);
      if w.unlistable {
        return 0;
      }
      var rows := AllSessions();
      collapsed := 0;
      FoldNothing(s, api, w);
      AllRows(s, api, rows);
      assert s.records == records && CanonicalMap(s.sessions, api, canonicalByUser);
      hide Folded, FoldedOne, Duplicates, Duplicate, OwnerOf, Lower, CanonicalMap, Lists, AmongRows, SessionStore.Now;
      for i := 0 to |rows|
        invariant collapsed == |AmongRows(s, api, rows, i)| && Now() == Folded(s, api, AmongRows(s, api, rows, i), w)
      {
        var (id, r) := rows[i];
        var u := Lower(r.user);
        NextRow(s, api, rows, i);
        DuplicateIff(s, api, canonicalByUser, id);
        if id in api || u !in canonicalByUser || canonicalByUser[u] == id {
          continue;
        }
        FoldOne(s, api, AmongRows(s, api, rows, i), id, w);
        Fold(id, canonicalByUser[u], w);
        collapsed := collapsed + 1;
      }
    }
  }

  /** Each durable session once, in some order. */
  ghost predicate Lists(rows: seq<(Id, Record)>, records: map<Id, Record>) {
    && (forall i, j :: 0 <= i < j < |rows| ==> rows[i].0 != rows[j].0)
    && (forall i :: 0 <= i < |rows| ==> rows[i].0 in records && records[rows[i].0] == rows[i].1)
    && (forall id :: id in records ==> exists i :: 0 <= i < |rows| && rows[i].0 == id)
  }

  /** The duplicates among the first n rows. */
  ghost function AmongRows(s: State, api: set<Id>, rows: seq<(Id, Record)>, n: nat): (done: set<Id>)
    requires n <= |rows|
    ensures done <= Duplicates(s, api)
  {
    set i | 0 <= i < n && rows[i].0 in Duplicates(s, api) :: rows[i].0
  }

  lemma NextRow(s: State, api: set<Id>, rows: seq<(Id, Record)>, i: nat)
    requires Lists(rows, s.records) && i < |rows|
    ensures rows[i].0 in s.records && s.records[rows[i].0] == rows[i].1 && rows[i].0 !in AmongRows(s, api, rows, i)
    ensures var done, next := AmongRows(s, api, rows, i), AmongRows(s, api, rows, i + 1);
            if rows[i].0 in Duplicates(s, api) then next == done + {rows[i].0} && |next| == |done| + 1 else next == done
  {
    hide Duplicates;
    var done, next := AmongRows(s, api, rows, i), AmongRows(s, api, rows, i + 1);
    if rows[i].0 in Duplicates(s, api) {
      assert next == done + {rows[i].0};
    } else {
      assert next == done;
    }
  }

  lemma AllRows(s: State, api: set<Id>, rows: seq<(Id, Record)>)
    requires Lists(rows, s.records)
    ensures AmongRows(s, api, rows, |rows|) == Duplicates(s, api) && AmongRows(s, api, rows, 0) == {}
  {}

  /** Folding one more duplicate. */
  lemma FoldOne(s: State, api: set<Id>, done: set<Id>, id: Id, w: Weather)
    requires done <= Duplicates(s, api) && id in Duplicates(s, api) - done
    ensures FoldedOne(Folded(s, api, done, w), id, OwnerOf(s, api, id), w) == Folded(s, api, done + {id}, w)
  {
    var s1, s2 := FoldedOne(Folded(s, api, done, w), id, OwnerOf(s, api, id), w), Folded(s, api, done + {id}, w);
    hide Duplicates, OwnerOf;
    assert s1.aliases == s2.aliases;
    assert s1.records == s2.records;
    assert s1.sessions == s2.sessions;
  }
}
