/**
  What a retry worker makes of the tokens it finds when nothing else runs
  (internal/wrapper/reconciler.go:149-182): for each key a chain of reconciles
  that ends with a final verdict, the fifth attempt, or the record gone.
*/
module RetryChains {
  import opened Results
  import opened MountRecords
  import opened Authorization
  import opened Sections
  import opened Histories
  import opened SectionInvariants
  import opened SectionRuns
  import opened Protocol
  import opened Passes
  import opened RetryQueues
  import ProtocolInvariants

  type Lookups = Token -> PodLookup

  type Replies = Token -> Answers

  /** A worker's verdict on a key, and the attempt it was given at. */
  datatype Judgement = Judgement(verdict: Verdict, attempt: nat)

  /** One turn of a worker: the world after it, the token it queues again, the judgement it ends with. */
  datatype Turn = Turn(world: World, left: Option<Token>, judged: Option<Judgement>)

  function WorkTurn(cfg: Config, w: World, token: Token, lookups: Lookups, answers: Replies): Turn {
    if token.key !in w.mem then Turn(w, None, None)
    else
      var w1 := Log(w, RetryReconciled(token.key));
      var (w', verdict) := HandleRecord(cfg, w1, w.mem[token.key], RetryAnswer(lookups(token)), answers(token));
      if Final(verdict) || token.attempt + 1 >= MAX_RETRIES then Turn(w', None, Some(Judgement(verdict, token.attempt)))
      else Turn(w', Some(Token(token.key, token.attempt + 1)), None)
  }

  /** A token's turns, one after the other, until it is given up. */
  datatype Chain = Chain(world: World, last: Option<Judgement>, runs: nat)

  function RetryChain(cfg: Config, w: World, token: Token, lookups: Lookups, answers: Replies): Chain
    decreases if token.attempt < MAX_RETRIES then MAX_RETRIES - token.attempt else 0
  {
    var turn := WorkTurn(cfg, w, token, lookups, answers);
    if turn.left.Some? then
      var rest := RetryChain(cfg, turn.world, turn.left.value, lookups, answers);
      rest.(runs := rest.runs + 1)
    else Chain(turn.world, turn.judged, if turn.judged.Some? then 1 else 0)
  }

  // ----- a turn -----

  lemma TurnAt(cfg: Config, w: World, v: World, token: Token, lookups: Lookups, answers: Replies)
    requires SameAt(w, v, token.key)
    requires token.key in w.mem ==> KeyOf(w.mem[token.key]) == token.key
    ensures var t, u := WorkTurn(cfg, w, token, lookups, answers), WorkTurn(cfg, v, token, lookups, answers);
            t.left == u.left && t.judged == u.judged && SameAt(t.world, u.world, token.key)
  {
    var k := token.key;
    assert k in w.mem <==> k in v.mem;
    if k in w.mem {
      LogAt(w, v, RetryReconciled(k), k);
      HandleAt(cfg, Log(w, RetryReconciled(k)), Log(v, RetryReconciled(k)), w.mem[k], RetryAnswer(lookups(token)),
               answers(token));
    }
  }

  /** How many reconciles workers have made. */
  function Reconciles(h: History): nat {
    if h == [] then 0 else Reconciles(h[..|h| - 1]) + if h[|h| - 1].RetryReconciled? then 1 else 0
  }

  lemma {:induction false} CountsWithin(h: History, h': History, k: Key)
    requires h <= h' && forall i :: |h| <= i < |h'| ==> About(h'[i], k)
    ensures Reconciles(h') == Reconciles(h) && forall x :: RetriesSince(h', x) == RetriesSince(h, x)
    decreases |h'|
  {
    if |h'| > |h| {
      CountsWithin(h, h'[..|h'| - 1], k);
    } else {
      assert h' == h;
    }
  }

  lemma ReconciledCounts(h: History, k: Key)
    ensures Reconciles(h + [RetryReconciled(k)]) == Reconciles(h) + 1
    ensures forall x :: RetriesSince(h + [RetryReconciled(k)], x) == RetriesSince(h, x) + if x == k then 1 else 0
  {
    assert (h + [RetryReconciled(k)])[..|h|] == h;
    forall x
      ensures RetriesSince(h + [RetryReconciled(k)], x) == RetriesSince(h, x) + if x == k then 1 else 0
    {
      Extend(h, RetryReconciled(k), x);
    }
  }

  /** A turn keeps the world, happens at its key only, and counts as one reconcile of it if there was a record. */
  lemma TurnKeeps(cfg: Config, w: World, token: Token, lookups: Lookups, answers: Replies)
    requires WorldOk(w) && RetriesSince(w.history, token.key) < MAX_RETRIES
    ensures var w', one := WorkTurn(cfg, w, token, lookups, answers).world, if token.key in w.mem then 1 else 0;
            && WorldOk(w')
            && (forall x :: x != token.key ==> SameAt(w, w', x))
            && Reconciles(w'.history) == Reconciles(w.history) + one
            && forall x :: RetriesSince(w'.history, x) == RetriesSince(w.history, x) + if x == token.key then one else 0
  {
    var k := token.key;
    if k in w.mem {
      assert KeyOk(w, k);
      var w1 := Log(w, RetryReconciled(k));
      ProtocolInvariants.OuterKeeps(w, RetryReconciled(k));
      ReconciledCounts(w.history, k);
      var answer := RetryAnswer(lookups(token));
      HandleWithin(cfg, w1, w.mem[k], answer, answers(token));
      var (w', _) := HandleRecord(cfg, w1, w.mem[k], answer, answers(token));
      CountsWithin(w1.history, w'.history, k);
      forall x | x != k
        ensures SameAt(w, w', x)
      {
        OuterSame(w, RetryReconciled(k), x);
        WithinElsewhere(w1, w', k, x);
        SameChain(w, w1, w', x);
      }
    }
  }

  /**
    A turn on a record judges it by what the API says of its pod: gone, it is
    stale; unknown, it failed and nothing happened; else its reconcile section
    decides. A failed one leaves the next attempt's token, unless it was the fifth.
  */
  lemma TurnMeans(cfg: Config, w: World, token: Token, lookups: Lookups, answers: Replies)
    requires token.key in w.mem
    ensures var turn, w1 := WorkTurn(cfg, w, token, lookups, answers), Log(w, RetryReconciled(token.key));
            var verdict := match lookups(token)
                           case NotFound => Stale
                           case ApiError => Failed
                           case Live(pod) =>
                             RunReconcile(cfg, w1, Job(w.mem[token.key], pod), ReconcileGet, answers(token)).1.verdict;
            && (verdict.Failed? && token.attempt + 1 < 5 ==>
                  turn.left == Some(Token(token.key, token.attempt + 1)) && turn.judged == None)
            && (!verdict.Failed? || token.attempt + 1 >= 5 ==>
                  turn.left == None && turn.judged == Some(Judgement(verdict, token.attempt)))
            && (lookups(token).ApiError? ==> turn.world == w1)
  {
  }

  // ----- a chain -----

  lemma {:induction false} ChainAt(cfg: Config, w: World, v: World, token: Token, lookups: Lookups, answers: Replies)
    requires WorldOk(w) && SameAt(w, v, token.key)
    requires RetriesSince(w.history, token.key) == token.attempt < MAX_RETRIES
    ensures var c, d := RetryChain(cfg, w, token, lookups, answers), RetryChain(cfg, v, token, lookups, answers);
            c.last == d.last && c.runs == d.runs && SameAt(c.world, d.world, token.key)
    decreases MAX_RETRIES - token.attempt
  {
    assert KeyOk(w, token.key);
    TurnAt(cfg, w, v, token, lookups, answers);
    TurnKeeps(cfg, w, token, lookups, answers);
    var t, u := WorkTurn(cfg, w, token, lookups, answers), WorkTurn(cfg, v, token, lookups, answers);
    if t.left.Some? {
      ChainAt(cfg, t.world, u.world, t.left.value, lookups, answers);
    }
  }

  /**
    How a chain ends: with the record gone, or with a judgement that is final or
    the fifth; a record that settled names the container of the pod it was last
    judged by; and the reconciles it took fit what was left of the five.
  */
  lemma {:induction false} ChainMeans(cfg: Config, w: World, token: Token, lookups: Lookups, answers: Replies)
    requires WorldOk(w) && RetriesSince(w.history, token.key) == token.attempt < MAX_RETRIES
    ensures var c := RetryChain(cfg, w, token, lookups, answers);
            && WorldOk(c.world)
            && (token.key in w.mem <==> c.last.Some?)
            && c.runs <= MAX_RETRIES - token.attempt
            && (c.last.Some? ==>
                  c.runs == c.last.value.attempt + 1 - token.attempt && Concluded(cfg, c, token.key, lookups))
    decreases MAX_RETRIES - token.attempt
  {
    var k := token.key;
    assert KeyOk(w, k);
    TurnKeeps(cfg, w, token, lookups, answers);
    var t := WorkTurn(cfg, w, token, lookups, answers);
    if t.left.Some? {
      FailedStays(cfg, w, token, lookups, answers);
      ChainMeans(cfg, t.world, t.left.value, lookups, answers);
    } else if k in w.mem {
      TurnConcludes(cfg, w, token, lookups, answers);
    }
  }

  /** The last judgement is final or the fifth, and if it settled, the record names its pod's container. */
  ghost predicate Concluded(cfg: Config, c: Chain, k: Key, lookups: Lookups)
    requires c.last.Some?
  {
    var lookup := lookups(Token(k, c.last.value.attempt));
    && (Final(c.last.value.verdict) || c.last.value.attempt + 1 == MAX_RETRIES)
    && (c.last.value.verdict.Settled? ==>
          lookup.Live? && k in c.world.mem && Converged(cfg, c.world.mem[k], lookup.pod))
  }

  lemma TurnConcludes(cfg: Config, w: World, token: Token, lookups: Lookups, answers: Replies)
    requires WorldOk(w) && RetriesSince(w.history, token.key) == token.attempt < MAX_RETRIES && token.key in w.mem
    requires WorkTurn(cfg, w, token, lookups, answers).left.None?
    ensures var t := WorkTurn(cfg, w, token, lookups, answers);
            t.judged.Some? && Concluded(cfg, Chain(t.world, t.judged, 1), token.key, lookups)
  {
    var k := token.key;
    assert KeyOk(w, k);
    var w1, r, answer := Log(w, RetryReconciled(k)), w.mem[k], RetryAnswer(lookups(token));
    ProtocolInvariants.OuterKeeps(w, RetryReconciled(k));
    var (w', verdict) := HandleRecord(cfg, w1, r, answer, answers(token));
    HandledConverges(cfg, w1, w', r, answer, answers(token), verdict);
  }

  /** A reconcile that failed leaves the record there to be retried. */
  lemma FailedStays(cfg: Config, w: World, token: Token, lookups: Lookups, answers: Replies)
    requires WorldOk(w) && token.key in w.mem && WorkTurn(cfg, w, token, lookups, answers).left.Some?
    ensures token.key in WorkTurn(cfg, w, token, lookups, answers).world.mem
  {
    var k := token.key;
    assert KeyOk(w, k);
    var w1, r, answer := Log(w, RetryReconciled(k)), w.mem[k], RetryAnswer(lookups(token));
    if answer.Found? {
      ReconcileLeavesRecord(cfg, w1, Job(r, answer.pod), ReconcileGet, answers(token));
    }
  }

  lemma {:induction false} ReconcileLeavesRecord(cfg: Config, w: World, job: Job, at: ReconcilePoint, a: Answers)
    ensures w.mem.Keys <= RunReconcile(cfg, w, job, at, a).0.mem.Keys
    decreases ReconcileLeft(at)
  {
    if !at.ReconcileExit? {
      var (w', at') := ReconcileStep(cfg, w, job, at, a);
      ReconcileLeavesRecord(cfg, w', job, at', a);
    }
  }

  // ----- the worker's queue -----

  function Find(tokens: seq<Token>, k: Key): Option<Token> {
    if tokens == [] then None else if tokens[0].key == k then Some(tokens[0]) else Find(tokens[1..], k)
  }

  predicate Distinct(tokens: seq<Token>) { forall i, j :: 0 <= i < j < |tokens| ==> tokens[i].key != tokens[j].key }

  lemma {:induction false} FindAbsent(tokens: seq<Token>, k: Key)
    requires forall i :: 0 <= i < |tokens| ==> tokens[i].key != k
    ensures Find(tokens, k) == None
  {
    if tokens != [] { FindAbsent(tokens[1..], k); }
  }

  lemma {:induction false} FindAppend(tokens: seq<Token>, token: Token, k: Key)
    ensures Find(tokens + [token], k) ==
            if Find(tokens, k).Some? then Find(tokens, k) else if token.key == k then Some(token) else None
  {
    if tokens == [] {
      assert tokens + [token] == [token];
      assert [token][1..] == [];
    } else {
      assert (tokens + [token])[1..] == tokens[1..] + [token];
      FindAppend(tokens[1..], token, k);
    }
  }

  /** Every queued token's attempt is the number of reconciles of its key since it was scheduled. */
  predicate Counted(h: History, tokens: seq<Token>) {
    forall i :: 0 <= i < |tokens| ==> RetriesSince(h, tokens[i].key) == tokens[i].attempt < MAX_RETRIES
  }

  function Remaining(tokens: seq<Token>, turn: Turn): seq<Token>
    requires tokens != []
  {
    tokens[1..] + if turn.left.Some? then [turn.left.value] else []
  }

  function Noted(last: map<Key, Judgement>, k: Key, turn: Turn): map<Key, Judgement> {
    if turn.judged.Some? then last[k := turn.judged.value] else last
  }

  /** The world, the queue, the judgements and the reconciles made, after a turn on a token already taken. */
  function AfterTurn(cfg: Config, w: World, token: Token, rest: seq<Token>, last: map<Key, Judgement>, lookups: Lookups,
                     answers: Replies): (World, seq<Token>, map<Key, Judgement>, nat)
  {
    var turn := WorkTurn(cfg, w, token, lookups, answers);
    (turn.world, rest + (if turn.left.Some? then [turn.left.value] else []), Noted(last, token.key, turn),
     if token.key in w.mem then 1 else 0)
  }

  predicate Ends(token: Token, verdict: Verdict) { Final(verdict) || token.attempt + 1 >= MAX_RETRIES }

  function RestOf(token: Token, verdict: Verdict): seq<Token> {
    if Ends(token, verdict) then [] else [Token(token.key, token.attempt + 1)]
  }

  function NotedBy(last: map<Key, Judgement>, token: Token, verdict: Verdict): map<Key, Judgement> {
    if Ends(token, verdict) then last[token.key := Judgement(verdict, token.attempt)] else last
  }

  lemma TurnRan(cfg: Config, w: World, token: Token, rest: seq<Token>, last: map<Key, Judgement>, lookups: Lookups,
                answers: Replies, w': World, verdict: Verdict)
    requires token.key in w.mem
    requires (w', verdict) == HandleRecord(cfg, Log(w, RetryReconciled(token.key)), w.mem[token.key],
                                           RetryAnswer(lookups(token)), answers(token))
    ensures AfterTurn(cfg, w, token, rest, last, lookups, answers) ==
            (w', rest + RestOf(token, verdict), NotedBy(last, token, verdict), 1)
  {
  }

  lemma TurnGone(cfg: Config, w: World, token: Token, rest: seq<Token>, last: map<Key, Judgement>, lookups: Lookups,
                 answers: Replies)
    requires token.key !in w.mem
    ensures AfterTurn(cfg, w, token, rest, last, lookups, answers) == (w, rest, last, 0)
  {
    assert rest + [] == rest;
  }

  /** Of a token's chain from the starting world, what is left to do is the chain from w of the token that is left. */
  ghost predicate KeyWorked(cfg: Config, start: World, w: World, token: Token, left: Option<Token>, lookups: Lookups,
                            answers: Replies, last: map<Key, Judgement>)
  {
    var k, c := token.key, RetryChain(cfg, start, token, lookups, answers);
    match left
    case None =>
      SameAt(c.world, w, k) && Lookup(last, k) == c.last && RetriesSince(w.history, k) == token.attempt + c.runs
    case Some(u) =>
      var d := RetryChain(cfg, w, u, lookups, answers);
      && u.key == k && token.attempt <= u.attempt && k !in last
      && SameAt(c.world, d.world, k) && c.last == d.last && c.runs == d.runs + (u.attempt - token.attempt)
  }

  /** The turn of the key's own token. */
  lemma KeyWorkedOne(cfg: Config, start: World, w: World, token: Token, u: Token, lookups: Lookups, answers: Replies,
                     last: map<Key, Judgement>)
    requires WorldOk(w) && RetriesSince(w.history, u.key) == u.attempt < MAX_RETRIES
    requires KeyWorked(cfg, start, w, token, Some(u), lookups, answers, last)
    ensures var turn := WorkTurn(cfg, w, u, lookups, answers);
            KeyWorked(cfg, start, turn.world, token, turn.left, lookups, answers, Noted(last, u.key, turn))
  {
    TurnKeeps(cfg, w, u, lookups, answers);
  }

  /** The turn of another key's token. */
  lemma KeyWorkedOther(cfg: Config, start: World, w: World, w': World, token: Token, left: Option<Token>,
                       lookups: Lookups,
                       answers: Replies, last: map<Key, Judgement>, last': map<Key, Judgement>)
    requires WorldOk(w) && SameAt(w, w', token.key) && Lookup(last', token.key) == Lookup(last, token.key)
    requires RetriesSince(w'.history, token.key) == RetriesSince(w.history, token.key)
    requires left.Some? ==> RetriesSince(w.history, token.key) == left.value.attempt < MAX_RETRIES
    requires KeyWorked(cfg, start, w, token, left, lookups, answers, last)
    ensures KeyWorked(cfg, start, w', token, left, lookups, answers, last')
  {
    if left.Some? {
      ChainAt(cfg, w, w', left.value, lookups, answers);
    }
  }

  /** A worker on its way: started with the tokens `first`, it has `tokens` left. */
  ghost predicate Working(cfg: Config, start: World, w: World, first: seq<Token>, tokens: seq<Token>, lookups: Lookups,
                          answers: Replies, last: map<Key, Judgement>)
  {
    && WorldOk(w) && Counted(w.history, tokens)
    && QueuedKeys(tokens) <= QueuedKeys(first) && last.Keys <= QueuedKeys(first)
    && (forall k :: k !in QueuedKeys(first) ==> SameAt(start, w, k))
    && (forall i :: 0 <= i < |first| ==>
          KeyWorked(cfg, start, w, first[i], Find(tokens, first[i].key), lookups, answers, last))
  }

  lemma WorkStart(cfg: Config, start: World, first: seq<Token>, lookups: Lookups, answers: Replies)
    requires WorldOk(start) && Counted(start.history, first) && Distinct(first)
    ensures Working(cfg, start, start, first, first, lookups, answers, map[])
  {
    forall i | 0 <= i < |first|
      ensures Find(first, first[i].key) == Some(first[i])
    {
      FindOwn(first, i);
    }
  }

  lemma {:induction false} FindOwn(tokens: seq<Token>, i: nat)
    requires i < |tokens| && Distinct(tokens)
    ensures Find(tokens, tokens[i].key) == Some(tokens[i])
  {
    if i > 0 {
      assert tokens[0].key != tokens[i].key;
      FindOwn(tokens[1..], i - 1);
    }
  }

  lemma {:induction false} FindIn(tokens: seq<Token>, k: Key)
    ensures Find(tokens, k).Some? ==> Find(tokens, k).value in tokens && Find(tokens, k).value.key == k
  {
    if tokens != [] { FindIn(tokens[1..], k); }
  }

  lemma QueueAfter(tokens: seq<Token>, turn: Turn, first: set<Key>)
    requires tokens != [] && Distinct(tokens) && QueuedKeys(tokens) <= first
    requires turn.left.Some? ==> turn.left.value.key == tokens[0].key
    ensures QueuedKeys(Remaining(tokens, turn)) <= first
    ensures forall k :: Find(Remaining(tokens, turn), k) == if k == tokens[0].key then turn.left else Find(tokens, k)
  {
    QueuedHead(tokens);
    assert tokens[0].key in first;
    if turn.left.Some? {
      QueuedAppend(tokens[1..], turn.left.value);
    } else {
      assert Remaining(tokens, turn) == tokens[1..];
    }
    forall k
      ensures Find(Remaining(tokens, turn), k) == if k == tokens[0].key then turn.left else Find(tokens, k)
    {
      if turn.left.Some? { FindAppend(tokens[1..], turn.left.value, k); }
      if k == tokens[0].key { FindAbsent(tokens[1..], k); }
    }
  }

  lemma CountedAfter(w: World, w': World, tokens: seq<Token>, turn: Turn, one: nat)
    requires tokens != [] && Distinct(tokens) && Counted(w.history, tokens)
    requires forall x ::
               RetriesSince(w'.history, x) == RetriesSince(w.history, x) + if x == tokens[0].key then one else 0
    requires turn.left.Some? ==>
               one == 1 && turn.left.value == Token(tokens[0].key, tokens[0].attempt + 1)
                 && tokens[0].attempt + 1 < MAX_RETRIES
    ensures Counted(w'.history, Remaining(tokens, turn))
  {
    var after := Remaining(tokens, turn);
    forall i | 0 <= i < |after|
      ensures RetriesSince(w'.history, after[i].key) == after[i].attempt < MAX_RETRIES
    {
      if i < |tokens| - 1 { assert after[i] == tokens[i + 1] && tokens[0].key != tokens[i + 1].key; }
    }
  }

  /** The same, for a token that was taken from the queue: what a turn leaves is on its way, and within budget. */
  lemma TurnWorks(cfg: Config, start: World, w: World, first: seq<Token>, tokens: seq<Token>, lookups: Lookups,
                  answers: Replies, last: map<Key, Judgement>, b: (World, seq<Token>, map<Key, Judgement>, nat))
    requires Working(cfg, start, w, first, tokens, lookups, answers, last) && tokens != [] && Distinct(tokens)
    requires b == AfterTurn(cfg, w, tokens[0], tokens[1..], last, lookups, answers)
    ensures Working(cfg, start, b.0, first, b.1, lookups, answers, b.2)
    ensures Reconciles(b.0.history) == Reconciles(w.history) + b.3
    ensures Budget(b.1) + b.3 <= Budget(tokens) && Budget(b.1) < Budget(tokens)
  {
    TurnKeeps(cfg, w, tokens[0], lookups, answers);
    WorkOne(cfg, start, w, first, tokens, lookups, answers, last);
    BudgetTurn(cfg, w, tokens, lookups, answers);
  }

  /** A turn on the first queued token keeps a worker on its way. */
  lemma WorkOne(cfg: Config, start: World, w: World, first: seq<Token>, tokens: seq<Token>, lookups: Lookups,
                answers: Replies, last: map<Key, Judgement>)
    requires Working(cfg, start, w, first, tokens, lookups, answers, last) && tokens != [] && Distinct(tokens)
    ensures var turn := WorkTurn(cfg, w, tokens[0], lookups, answers);
            Working(cfg, start, turn.world, first, Remaining(tokens, turn), lookups, answers,
                    Noted(last, tokens[0].key, turn))
  {
    var token := tokens[0];
    var turn := WorkTurn(cfg, w, token, lookups, answers);
    TurnKeeps(cfg, w, token, lookups, answers);
    QueueAfter(tokens, turn, QueuedKeys(first));
    CountedAfter(w, turn.world, tokens, turn, if token.key in w.mem then 1 else 0);
    assert token.key in QueuedKeys(tokens);
    forall k | k !in QueuedKeys(first)
      ensures SameAt(start, turn.world, k)
    {
      SameChain(start, w, turn.world, k);
    }
    forall i | 0 <= i < |first|
      ensures KeyWorked(cfg, start, turn.world, first[i], Find(Remaining(tokens, turn), first[i].key), lookups, answers,
                        Noted(last, token.key, turn))
    {
      KeyWorkedNext(cfg, start, w, first[i], tokens, lookups, answers, last);
    }
  }

  lemma KeyWorkedNext(cfg: Config, start: World, w: World, token: Token, tokens: seq<Token>, lookups: Lookups,
                      answers: Replies, last: map<Key, Judgement>)
    requires WorldOk(w) && tokens != [] && Distinct(tokens) && Counted(w.history, tokens)
    requires KeyWorked(cfg, start, w, token, Find(tokens, token.key), lookups, answers, last)
    ensures var turn := WorkTurn(cfg, w, tokens[0], lookups, answers);
            KeyWorked(cfg, start, turn.world, token, Find(Remaining(tokens, turn), token.key), lookups, answers,
                      Noted(last, tokens[0].key, turn))
  {
    var turn := WorkTurn(cfg, w, tokens[0], lookups, answers);
    QueueAfter(tokens, turn, QueuedKeys(tokens));
    TurnKeeps(cfg, w, tokens[0], lookups, answers);
    if token.key == tokens[0].key {
      KeyWorkedOne(cfg, start, w, token, tokens[0], lookups, answers, last);
    } else {
      FindIn(tokens, token.key);
      KeyWorkedOther(cfg, start, w, turn.world, token, Find(tokens, token.key), lookups, answers, last,
                     Noted(last, tokens[0].key, turn));
    }
  }

  /** A turn uses up at least one reconcile of the queue's budget, and every one it makes. */
  lemma BudgetTurn(cfg: Config, w: World, tokens: seq<Token>, lookups: Lookups, answers: Replies)
    requires tokens != [] && tokens[0].attempt < MAX_RETRIES
    ensures var turn := WorkTurn(cfg, w, tokens[0], lookups, answers);
            var one := if tokens[0].key in w.mem then 1 else 0;
            && Budget(Remaining(tokens, turn)) < Budget(tokens)
            && Budget(Remaining(tokens, turn)) + one <= Budget(tokens)
  {
    var turn := WorkTurn(cfg, w, tokens[0], lookups, answers);
    if turn.left.Some? {
      BudgetAppend(tokens[1..], turn.left.value);
    } else {
      assert Remaining(tokens, turn) == tokens[1..];
    }
  }

  /** What a worker that emptied its queue has done: every token's chain, and nothing else. */
  ghost predicate Worked(cfg: Config, start: World, w: World, first: seq<Token>, lookups: Lookups, answers: Replies,
                         last: map<Key, Judgement>)
  {
    && last.Keys <= QueuedKeys(first)
    && (forall k :: k !in QueuedKeys(first) ==> SameAt(start, w, k))
    && (forall i :: 0 <= i < |first| ==> KeyWorked(cfg, start, w, first[i], None, lookups, answers, last))
  }

  lemma WorkDone(cfg: Config, start: World, w: World, first: seq<Token>, lookups: Lookups, answers: Replies,
                 last: map<Key, Judgement>)
    requires Working(cfg, start, w, first, [], lookups, answers, last)
    ensures Worked(cfg, start, w, first, lookups, answers, last)
  {
  }

  /**
    So every key that was waiting has its record gone, or a last judgement that
    is final or the fifth; and a record that settled names the container of the
    pod it was last judged by.
  */
  lemma WorkedMeans(cfg: Config, start: World, w: World, first: seq<Token>, lookups: Lookups, answers: Replies,
                    last: map<Key, Judgement>, i: nat)
    requires Worked(cfg, start, w, first, lookups, answers, last)
    requires WorldOk(start) && Counted(start.history, first) && i < |first|
    ensures var k := first[i].key;
            && (k in last <==> k in start.mem)
            && (k in last ==>
                  var lookup := lookups(Token(k, last[k].attempt));
                  && (Final(last[k].verdict) || last[k].attempt + 1 == MAX_RETRIES)
                  && RetriesSince(w.history, k) == last[k].attempt + 1 <= MAX_RETRIES
                  && (last[k].verdict.Settled? ==> lookup.Live? && k in w.mem && Converged(cfg, w.mem[k], lookup.pod)))
  {
    ChainMeans(cfg, start, first[i], lookups, answers);
    assert KeyWorked(cfg, start, w, first[i], None, lookups, answers, last);
  }

  /** Scheduling a key that is not waiting starts its count again and disturbs no other. */
  lemma ScheduleCounts(h: History, tokens: seq<Token>, key: Key)
    requires Counted(h, tokens) && key !in QueuedKeys(tokens)
    ensures Counted(h + [RetryScheduled(key)], tokens) && Counted(h + [RetryScheduled(key)], tokens + [Token(key, 0)])
  {
    var h', all := h + [RetryScheduled(key)], tokens + [Token(key, 0)];
    Extend(h, RetryScheduled(key), key);
    forall i | 0 <= i < |tokens|
      ensures RetriesSince(h', tokens[i].key) == tokens[i].attempt < MAX_RETRIES && all[i] == tokens[i]
    {
      assert tokens[i].key in QueuedKeys(tokens);
      Extend(h, RetryScheduled(key), tokens[i].key);
    }
  }
}
