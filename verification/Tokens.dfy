/** Refresh tokens: login, rotation and logout as transactions that interleave at the granularity
    of the token row lock. */
module Tokens {
  import opened Options

  type UserId = nat
  type Hash = nat
  type TxnId = nat

  /** `login` is history: which login the token descends from. */
  datatype Token = Token(user: UserId, expires: int, revoked: bool, login: nat)

  /** `seen` is whether the user was active when the session read the user, once. */
  datatype Txn =
    | Login(user: UserId, seen: Option<bool>)
    | Rotate(hash: Hash, now: int, row: Option<Token>, seen: Option<bool>)
    | Logout(hash: Hash, row: Option<Token>)

  /** `users` and `chains` (one per login, oldest token first), `rotations` and `logouts` are history. */
  datatype Book = Book(
    tokens: map<Hash, Token>,
    users: seq<UserId>, chains: seq<seq<Hash>>, rotations: multiset<Hash>, logouts: multiset<UserId>)

  datatype State = State(book: Book, active: set<UserId>, locks: map<Hash, TxnId>, txns: map<TxnId, Txn>)

  datatype Action =
    | SetActive(user: UserId, on: bool)
    | Begin(t: TxnId, txn: Txn)
    | Lock(t: TxnId)
    | ReadUser(t: TxnId)
    | Commit(t: TxnId, issued: Hash, expires: int)
    | Abort(t: TxnId)

  predicate HasExpired(expires: int, now: int) {
    expires <= now
  }

  predicate Enabled(s: State, a: Action) {
    match a
    case SetActive(_, _) => true
    case Begin(t, txn) =>
      t !in s.txns && (txn.Login? || txn.row.None?) && (txn.Logout? || txn.seen.None?)
    case Lock(t) =>
      && t in s.txns && !s.txns[t].Login? && s.txns[t].row.None?
      && s.txns[t].hash in s.book.tokens && s.txns[t].hash !in s.locks
    case ReadUser(t) =>
      t in s.txns && (s.txns[t].Login? || (s.txns[t].Rotate? && s.txns[t].row.Some?)) && s.txns[t].seen.None?
    case Commit(t, issued, _) =>
      && t in s.txns
      && (match s.txns[t]
          case Login(_, seen) => seen == Some(true) && issued !in s.book.tokens
          case Rotate(_, now, row, seen) =>
            && row.Some? && !row.value.revoked && !HasExpired(row.value.expires, now)
            && seen == Some(true) && issued !in s.book.tokens
          case Logout(_, row) => row.Some?)
    case Abort(t) => t in s.txns
  }

  function Unlocked(locks: map<Hash, TxnId>, t: TxnId): map<Hash, TxnId> {
    map h | h in locks && locks[h] != t :: locks[h]
  }

  function Ended(s: State, t: TxnId): State {
    s.(locks := Unlocked(s.locks, t), txns := s.txns - {t})
  }

  /** `issue_tokens` for a login. */
  function LoggedIn(b: Book, user: UserId, issued: Hash, expires: int): Book {
    b.(tokens := b.tokens[issued := Token(user, expires, false, |b.chains|)],
       users := b.users + [user], chains := b.chains + [[issued]])
  }

  function Rotated(b: Book, hash: Hash, row: Token, issued: Hash, expires: int): Book {
    b.(tokens := b.tokens[hash := row.(revoked := true)][issued := Token(row.user, expires, false, row.login)],
       chains := if row.login < |b.chains| then b.chains[row.login := b.chains[row.login] + [issued]] else b.chains,
       rotations := b.rotations + multiset{hash})
  }

  function LoggedOut(b: Book, hash: Hash, row: Token): Book {
    if row.revoked then b
    else b.(tokens := b.tokens[hash := row.(revoked := true)], logouts := b.logouts + multiset{row.user})
  }

  function Do(s: State, a: Action): State
    requires Enabled(s, a)
  {
    match a
    case SetActive(user, on) => s.(active := if on then s.active + {user} else s.active - {user})
    case Begin(t, txn) => s.(txns := s.txns[t := txn])
    case Lock(t) =>
      var hash := s.txns[t].hash;
      s.(txns := s.txns[t := s.txns[t].(row := Some(s.book.tokens[hash]))], locks := s.locks[hash := t])
    case ReadUser(t) =>
      var user := if s.txns[t].Login? then s.txns[t].user else s.txns[t].row.value.user;
      s.(txns := s.txns[t := s.txns[t].(seen := Some(user in s.active))])
    case Commit(t, issued, expires) =>
      (match s.txns[t]
       case Login(user, _) => Ended(s, t).(book := LoggedIn(s.book, user, issued, expires))
       case Rotate(hash, _, row, _) => Ended(s, t).(book := Rotated(s.book, hash, row.value, issued, expires))
       case Logout(hash, row) => Ended(s, t).(book := LoggedOut(s.book, hash, row.value)))
    case Abort(t) => Ended(s, t)
  }

  predicate Init(s: State) {
    s.book == Book(map[], [], [], multiset{}, multiset{}) && s.locks == map[] && s.txns == map[]
  }

  predicate ValidRun(s: State, run: seq<Action>)
    decreases |run|
  {
    run == [] || (Enabled(s, run[0]) && ValidRun(Do(s, run[0]), run[1..]))
  }

  function After(s: State, run: seq<Action>): State
    requires ValidRun(s, run)
    decreases |run|
  {
    if run == [] then s else After(Do(s, run[0]), run[1..])
  }

  // ----- Invariant -----

  /** Tokens of a user that are not revoked. */
  function Live(b: Book, user: UserId): set<Hash> {
    set h | h in b.tokens && b.tokens[h].user == user && !b.tokens[h].revoked
  }

  predicate NoRepeats(chain: seq<Hash>) {
    forall i, j | 0 <= i < j < |chain| :: chain[i] != chain[j]
  }

  /** One login: a simple chain of tokens of one user, all revoked but perhaps the last. */
  predicate ChainOk(b: Book, i: nat)
    requires i < |b.chains| && |b.users| == |b.chains|
  {
    var chain := b.chains[i];
    && chain != [] && NoRepeats(chain)
    && (forall h | h in chain :: h in b.tokens && b.tokens[h].login == i && b.tokens[h].user == b.users[i])
    && forall j | 0 <= j < |chain| - 1 :: chain[j] in b.tokens && b.tokens[chain[j]].revoked
  }

  predicate TokenOk(b: Book, h: Hash)
    requires h in b.tokens
  {
    b.tokens[h].login < |b.chains| && h in b.chains[b.tokens[h].login]
  }

  predicate IsLast(b: Book, h: Hash)
    requires h in b.tokens && TokenOk(b, h)
  {
    var chain := b.chains[b.tokens[h].login];
    chain[|chain| - 1] == h
  }

  ghost predicate Tables(b: Book) {
    && |b.users| == |b.chains|
    && (forall i | 0 <= i < |b.chains| :: ChainOk(b, i))
    && (forall h | h in b.tokens :: TokenOk(b, h))
  }

  /** Rotated tokens are exactly the ones with a successor, each once. */
  ghost predicate RotationsOk(b: Book)
    requires Tables(b)
  {
    && (forall h | h in b.rotations :: h in b.tokens)
    && forall h | h in b.tokens :: b.rotations[h] == if IsLast(b, h) then 0 else 1
  }

  ghost predicate CountsOk(b: Book) {
    forall user :: |Live(b, user)| + b.logouts[user] == multiset(b.users)[user]
  }

  predicate TxnOk(s: State, t: TxnId)
    requires t in s.txns
  {
    var txn := s.txns[t];
    !txn.Login? && txn.row.Some? ==>
      txn.hash in s.locks && s.locks[txn.hash] == t && txn.hash in s.book.tokens
          && s.book.tokens[txn.hash] == txn.row.value
  }

  ghost predicate Inv(s: State) {
    && Tables(s.book) && RotationsOk(s.book) && CountsOk(s.book)
    && forall t | t in s.txns :: TxnOk(s, t)
  }

  lemma LoginLive(b: Book, user: UserId, issued: Hash, expires: int, u: UserId)
    requires issued !in b.tokens
    ensures |Live(LoggedIn(b, user, issued, expires), u)| == |Live(b, u)| + if u == user then 1 else 0
  {
    var b' := LoggedIn(b, user, issued, expires);
    assert Live(b', u) == if u == user then Live(b, u) + {issued} else Live(b, u);
  }

  lemma LoginCounts(b: Book, user: UserId, issued: Hash, expires: int)
    requires CountsOk(b) && issued !in b.tokens
    ensures CountsOk(LoggedIn(b, user, issued, expires))
  {
    hide Live;
    var b' := LoggedIn(b, user, issued, expires);
    assert multiset(b'.users) == multiset(b.users) + multiset{user};
    forall u ensures |Live(b', u)| + b'.logouts[u] == multiset(b'.users)[u] {
      LoginLive(b, user, issued, expires, u);
    }
  }

  lemma LoginTables(b: Book, user: UserId, issued: Hash, expires: int)
    requires Tables(b) && issued !in b.tokens
    ensures Tables(LoggedIn(b, user, issued, expires))
  {
    var b' := LoggedIn(b, user, issued, expires);
    forall i | 0 <= i < |b'.chains| ensures ChainOk(b', i) {
      assert i < |b.chains| ==> ChainOk(b, i);
    }
    forall h | h in b'.tokens ensures TokenOk(b', h) {
      assert h in b.tokens ==> TokenOk(b, h);
    }
  }

  lemma LoginRotations(b: Book, user: UserId, issued: Hash, expires: int)
    requires Tables(b) && RotationsOk(b) && issued !in b.tokens
    requires Tables(LoggedIn(b, user, issued, expires))
    ensures RotationsOk(LoggedIn(b, user, issued, expires))
  {
    hide ChainOk;
    var b' := LoggedIn(b, user, issued, expires);
    forall h | h in b.tokens ensures IsLast(b', h) == IsLast(b, h) {
      assert TokenOk(b, h);
    }
    assert issued !in b.rotations && IsLast(b', issued);
  }

  lemma RotateCounts(b: Book, hash: Hash, row: Token, issued: Hash, expires: int)
    requires CountsOk(b) && hash in b.tokens && b.tokens[hash] == row && !row.revoked && issued !in b.tokens
    ensures CountsOk(Rotated(b, hash, row, issued, expires))
  {
    hide Live;
    var b' := Rotated(b, hash, row, issued, expires);
    forall u ensures |Live(b', u)| + b'.logouts[u] == multiset(b'.users)[u] {
      RotateLive(b, hash, row, issued, expires, u);
    }
  }

  lemma RotateLive(b: Book, hash: Hash, row: Token, issued: Hash, expires: int, u: UserId)
    requires hash in b.tokens && b.tokens[hash] == row && !row.revoked && issued !in b.tokens
    ensures |Live(Rotated(b, hash, row, issued, expires), u)| == |Live(b, u)|
  {
    var b' := Rotated(b, hash, row, issued, expires);
    assert Live(b', u) == if u == row.user then Live(b, u) - {hash} + {issued} else Live(b, u);
    assert u == row.user ==> hash in Live(b, u);
  }

  lemma LogoutCounts(b: Book, hash: Hash, row: Token)
    requires CountsOk(b) && hash in b.tokens && b.tokens[hash] == row
    ensures CountsOk(LoggedOut(b, hash, row))
  {
    hide Live;
    var b' := LoggedOut(b, hash, row);
    if !row.revoked {
      forall u ensures |Live(b', u)| + b'.logouts[u] == multiset(b'.users)[u] {
        LogoutLive(b, hash, row, u);
      }
    }
  }

  lemma LogoutLive(b: Book, hash: Hash, row: Token, u: UserId)
    requires hash in b.tokens && b.tokens[hash] == row && !row.revoked
    ensures |Live(b, u)| == |Live(LoggedOut(b, hash, row), u)| + if u == row.user then 1 else 0
  {
    var b' := LoggedOut(b, hash, row);
    assert Live(b', u) == if u == row.user then Live(b, u) - {hash} else Live(b, u);
    assert u == row.user ==> hash in Live(b, u);
  }

  /** An unrevoked token is the last of its chain. */
  lemma UnrevokedIsLast(b: Book, h: Hash)
    requires Tables(b) && h in b.tokens && !b.tokens[h].revoked
    ensures IsLast(b, h)
  {
    assert TokenOk(b, h) && ChainOk(b, b.tokens[h].login);
  }

  lemma RotateTables(b: Book, hash: Hash, row: Token, issued: Hash, expires: int)
    requires Tables(b) && hash in b.tokens && b.tokens[hash] == row && !row.revoked && issued !in b.tokens
    ensures Tables(Rotated(b, hash, row, issued, expires))
  {
    var b' := Rotated(b, hash, row, issued, expires);
    UnrevokedIsLast(b, hash);
    forall i | 0 <= i < |b'.chains| ensures ChainOk(b', i) {
      assert ChainOk(b, i);
    }
    forall h | h in b'.tokens ensures TokenOk(b', h) {
      assert h in b.tokens ==> TokenOk(b, h);
      if h == issued {
        var chain := b'.chains[row.login];
        assert chain[|chain| - 1] == issued;
      }
    }
  }

  lemma RotateRotations(b: Book, hash: Hash, row: Token, issued: Hash, expires: int)
    requires Tables(b) && RotationsOk(b) && hash in b.tokens && b.tokens[hash] == row && !row.revoked
        && issued !in b.tokens
    requires Tables(Rotated(b, hash, row, issued, expires))
    ensures RotationsOk(Rotated(b, hash, row, issued, expires))
  {
    hide ChainOk;
    var b' := Rotated(b, hash, row, issued, expires);
    UnrevokedIsLast(b, hash);
    forall h | h in b'.tokens ensures b'.rotations[h] == if IsLast(b', h) then 0 else 1 {
      if h != issued {
        assert TokenOk(b, h);
        LastAfterRotation(b, hash, row, issued, expires, h);
      } else {
        assert issued !in b.rotations;
      }
    }
  }

  lemma LastAfterRotation(b: Book, hash: Hash, row: Token, issued: Hash, expires: int, h: Hash)
    requires Tables(b) && hash in b.tokens && b.tokens[hash] == row && IsLast(b, hash) && issued !in b.tokens
        && h in b.tokens
    requires Tables(Rotated(b, hash, row, issued, expires))
    ensures IsLast(Rotated(b, hash, row, issued, expires), h) == (IsLast(b, h) && h != hash)
  {
    hide ChainOk;
    assert TokenOk(b, h);
  }

  lemma LogoutTables(b: Book, hash: Hash, row: Token)
    requires Tables(b) && hash in b.tokens && b.tokens[hash] == row
    ensures Tables(LoggedOut(b, hash, row))
  {
    hide NoRepeats;
    var b' := LoggedOut(b, hash, row);
    forall i | 0 <= i < |b'.chains| ensures ChainOk(b', i) {
      assert ChainOk(b, i);
    }
    forall h | h in b'.tokens ensures TokenOk(b', h) {
      assert TokenOk(b, h);
    }
  }

  lemma LogoutRotations(b: Book, hash: Hash, row: Token)
    requires Tables(b) && RotationsOk(b) && hash in b.tokens && b.tokens[hash] == row
    requires Tables(LoggedOut(b, hash, row))
    ensures RotationsOk(LoggedOut(b, hash, row))
  {
    hide ChainOk;
    var b' := LoggedOut(b, hash, row);
    forall h | h in b'.tokens ensures IsLast(b', h) == IsLast(b, h) {
      assert TokenOk(b, h);
    }
  }

  lemma CommitKeeps(s: State, t: TxnId, issued: Hash, expires: int)
    requires Inv(s) && Enabled(s, Commit(t, issued, expires))
    ensures Inv(Do(s, Commit(t, issued, expires)))
  {
    hide Tables, RotationsOk, CountsOk;
    var s' := Do(s, Commit(t, issued, expires));
    assert TxnOk(s, t);
    match s.txns[t] {
      case Login(user, _) =>
        LoginCounts(s.book, user, issued, expires);
        LoginTables(s.book, user, issued, expires);
        LoginRotations(s.book, user, issued, expires);
      case Rotate(hash, _, row, _) =>
        RotateCounts(s.book, hash, row.value, issued, expires);
        RotateTables(s.book, hash, row.value, issued, expires);
        RotateRotations(s.book, hash, row.value, issued, expires);
      case Logout(hash, row) =>
        LogoutCounts(s.book, hash, row.value);
        LogoutTables(s.book, hash, row.value);
        LogoutRotations(s.book, hash, row.value);
    }
    forall u | u in s'.txns ensures TxnOk(s', u) {
      assert TxnOk(s, u);
    }
  }

  lemma StepKeeps(s: State, a: Action)
    requires Inv(s) && Enabled(s, a)
    ensures Inv(Do(s, a))
  {
    hide Tables, RotationsOk, CountsOk;
    if a.Commit? {
      CommitKeeps(s, a.t, a.issued, a.expires);
    } else {
      var s' := Do(s, a);
      forall u | u in s'.txns ensures TxnOk(s', u) {
        assert u in s.txns ==> TxnOk(s, u);
      }
    }
  }

  lemma {:induction false} RunKeeps(s: State, run: seq<Action>)
    requires Inv(s) && ValidRun(s, run)
    ensures Inv(After(s, run))
    decreases |run|
  {
    hide Inv, Enabled;
    if run != [] {
      StepKeeps(s, run[0]);
      RunKeeps(Do(s, run[0]), run[1..]);
    }
  }

  lemma InitEstablishes(s: State)
    requires Init(s)
    ensures Inv(s)
  {
    forall user ensures Live(s.book, user) == {} {
    }
  }

  /** Commit and rollback free all locks of the transaction and no other; rollback changes no row. */
  lemma EndFreesLocks(s: State, a: Action)
    requires Enabled(s, a) && (a.Commit? || a.Abort?)
    ensures Do(s, a).txns == s.txns - {a.t}
    ensures forall h :: h in Do(s, a).locks <==> h in s.locks && s.locks[h] != a.t
    ensures forall h | h in Do(s, a).locks :: Do(s, a).locks[h] == s.locks[h]
    ensures a.Abort? ==> Do(s, a).book == s.book
  {
  }

  // ----- Main results -----

  /** Conservation: a user's unrevoked tokens equal logins minus effective logouts, in every
      interleaving; rotations change neither side. */
  lemma UnrevokedTokensAreConserved(s: State, run: seq<Action>, user: UserId)
    requires Init(s) && ValidRun(s, run)
    ensures var b := After(s, run).book;
      |Live(b, user)| + b.logouts[user] == multiset(b.users)[user]
  {
    hide Tables, RotationsOk, Live;
    InitEstablishes(s);
    RunKeeps(s, run);
  }

  /** Each login has grown a simple chain whose tokens are all revoked except perhaps the last;
      every token is in the chain of its login. */
  lemma LoginsGrowSimpleChains(s: State, run: seq<Action>, login: nat)
    requires Init(s) && ValidRun(s, run) && login < |After(s, run).book.chains|
    ensures var b := After(s, run).book;
      && |b.users| == |b.chains| && ChainOk(b, login)
      && forall h | h in b.tokens && b.tokens[h].login == login :: h in b.chains[login]
  {
    hide RotationsOk, Live, ChainOk, CountsOk;
    InitEstablishes(s);
    RunKeeps(s, run);
    var b := After(s, run).book;
    forall h | h in b.tokens && b.tokens[h].login == login ensures h in b.chains[login] {
      assert TokenOk(b, h);
    }
  }

  /** No token is rotated twice: it has been rotated once if it has a successor in its chain, and
      never otherwise. */
  lemma RotatedAtMostOnce(s: State, run: seq<Action>, h: Hash)
    requires Init(s) && ValidRun(s, run)
    ensures var b := After(s, run).book;
      if h in b.tokens then TokenOk(b, h) && b.rotations[h] == (if IsLast(b, h) then 0 else 1) else b.rotations[h] == 0
  {
    hide Live, ChainOk, CountsOk, IsLast;
    InitEstablishes(s);
    RunKeeps(s, run);
  }

  lemma RunCons(s: State, a: Action, rest: seq<Action>)
    ensures ValidRun(s, [a] + rest) <==> Enabled(s, a) && ValidRun(Do(s, a), rest)
    ensures ValidRun(s, [a] + rest) ==> After(s, [a] + rest) == After(Do(s, a), rest)
  {
    hide Enabled, Do;
    assert ([a] + rest)[1..] == rest;
  }

  lemma EmptyRun(s: State)
    ensures ValidRun(s, []) && After(s, []) == s
  {
  }

  /** Undisturbed, a rotation goes through if and only if the token exists, is unrevoked, has not
      expired at the clock reading, and belongs to an active user; it then replaces the token by
      one new token of the same user and login. */
  lemma RotationSucceedsIff(s: State, t: TxnId, hash: Hash, now: int, issued: Hash, expires: int)
    requires t !in s.txns && hash !in s.locks && issued !in s.book.tokens
    ensures var begin := Begin(t, Rotate(hash, now, None, None));
      var run := [begin] + ([Lock(t)] + ([ReadUser(t)] + ([Commit(t, issued, expires)] + [])));
      && (ValidRun(s, run) <==>
            hash in s.book.tokens && !s.book.tokens[hash].revoked && now < s.book.tokens[hash].expires
            && s.book.tokens[hash].user in s.active)
      && (ValidRun(s, run) ==>
            var row, tokens := s.book.tokens[hash], After(s, run).book.tokens;
            tokens ==
              s.book.tokens[hash := row.(revoked := true)][issued := Token(row.user, expires, false, row.login)])
  {
    hide ValidRun, After;
    var a, b, c, d := Begin(t, Rotate(hash, now, None, None)), Lock(t), ReadUser(t), Commit(t, issued, expires);
    RunCons(s, a, [b] + ([c] + ([d] + [])));
    var s1 := Do(s, a);
    RunCons(s1, b, [c] + ([d] + []));
    if Enabled(s1, b) {
      var s2 := Do(s1, b);
      RunCons(s2, c, [d] + []);
      var s3 := Do(s2, c);
      RunCons(s3, d, []);
      if Enabled(s3, d) {
        EmptyRun(Do(s3, d));
      }
    }
  }

  /** A step taken by the transaction. */
  predicate Acts(a: Action, t: TxnId) {
    !a.SetActive? && a.t == t
  }

  /** Whatever the others do, the transaction stays where it is. */
  lemma {:induction false} OthersLeave(s: State, t: TxnId, run: seq<Action>)
    requires ValidRun(s, run) && t in s.txns && forall a | a in run :: !Acts(a, t)
    ensures t in After(s, run).txns && After(s, run).txns[t] == s.txns[t]
    decreases |run|
  {
    if run != [] {
      assert !Acts(run[0], t);
      OthersLeave(Do(s, run[0]), t, run[1..]);
    }
  }

  function Asked(s: State, t: TxnId, user: UserId, before: seq<Action>): State
    requires t !in s.txns && ValidRun(Do(s, Begin(t, Login(user, None))), before)
  {
    After(Do(s, Begin(t, Login(user, None))), before)
  }

  /** A login in every interleaving: whatever others do before and after its session reads the user,
      the login issues its token if and only if the user was active at that reading, and it then
      adds exactly that token, starting a chain of its own. */
  lemma LoginIssuesIff(s: State, t: TxnId, user: UserId, before: seq<Action>, later: seq<Action>,
                       issued: Hash, expires: int)
    requires t !in s.txns && ValidRun(Do(s, Begin(t, Login(user, None))), before)
    requires forall a | a in before + later :: !Acts(a, t)
    requires Enabled(Asked(s, t, user, before), ReadUser(t)) ==>
      && ValidRun(Do(Asked(s, t, user, before), ReadUser(t)), later)
      && issued !in After(Do(Asked(s, t, user, before), ReadUser(t)), later).book.tokens
    ensures Enabled(Asked(s, t, user, before), ReadUser(t))
    ensures var read := Asked(s, t, user, before);
      var end := After(Do(read, ReadUser(t)), later);
      && (Enabled(end, Commit(t, issued, expires)) <==> user in read.active)
      && (Enabled(end, Commit(t, issued, expires)) ==>
            var b, b' := end.book, Do(end, Commit(t, issued, expires)).book;
            && b'.tokens == b.tokens[issued := Token(user, expires, false, |b.chains|)]
            && b'.chains == b.chains + [[issued]] && b'.users == b.users + [user]
            && b'.rotations == b.rotations && b'.logouts == b.logouts)
  {
    assert forall a | a in before :: a in before + later;
    assert forall a | a in later :: a in before + later;
    OthersLeave(Do(s, Begin(t, Login(user, None))), t, before);
    OthersLeave(Do(Asked(s, t, user, before), ReadUser(t)), t, later);
  }

  /** Undisturbed, a logout goes through if and only if the token exists; it revokes that token
      and nothing else, however often it is repeated. */
  lemma LogoutRevokes(s: State, t: TxnId, hash: Hash, issued: Hash, expires: int)
    requires t !in s.txns && hash !in s.locks
    ensures var run := [Begin(t, Logout(hash, None))] + ([Lock(t)] + ([Commit(t, issued, expires)] + []));
      && (ValidRun(s, run) <==> hash in s.book.tokens)
      && (ValidRun(s, run) ==>
            After(s, run).book.tokens == s.book.tokens[hash := s.book.tokens[hash].(revoked := true)])
  {
    hide ValidRun, After;
    var a, b, c := Begin(t, Logout(hash, None)), Lock(t), Commit(t, issued, expires);
    RunCons(s, a, [b] + ([c] + []));
    var s1 := Do(s, a);
    RunCons(s1, b, [c] + []);
    if Enabled(s1, b) {
      var s2 := Do(s1, b);
      RunCons(s2, c, []);
      EmptyRun(Do(s2, c));
    }
  }
}
