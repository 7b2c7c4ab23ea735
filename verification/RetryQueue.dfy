/**
  Pending retries (internal/wrapper/reconciler.go:18-33 and 131-182): a set of
  keys that are waiting for one, and a bounded queue of tokens.
*/
module RetryQueues {
  import opened Results
  import opened MountRecords
  import opened Histories
  import opened Protocol
  import opened Sections

  function QueuedKeys(tokens: seq<Token>): set<Key> { set i | 0 <= i < |tokens| :: tokens[i].key }

  lemma QueuedAppend(tokens: seq<Token>, token: Token)
    ensures QueuedKeys(tokens + [token]) == QueuedKeys(tokens) + {token.key}
  {
    var all := tokens + [token];
    assert forall i :: 0 <= i < |tokens| ==> all[i] == tokens[i];
    assert all[|tokens|] == token;
  }

  lemma QueuedHead(tokens: seq<Token>)
    requires tokens != []
    ensures QueuedKeys(tokens) == {tokens[0].key} + QueuedKeys(tokens[1..])
  {
    assert forall i :: 1 <= i < |tokens| ==> tokens[i] == tokens[1..][i - 1];
  }

  /** How many reconciles the queued tokens are good for. */
  function Budget(tokens: seq<Token>): nat {
    if tokens == [] then 0
    else (if tokens[0].attempt < MAX_RETRIES then MAX_RETRIES - tokens[0].attempt else 0) + Budget(tokens[1..])
  }

  lemma {:induction false} BudgetAppend(tokens: seq<Token>, token: Token)
    requires token.attempt < MAX_RETRIES
    ensures Budget(tokens + [token]) == Budget(tokens) + MAX_RETRIES - token.attempt
  {
    if tokens != [] {
      assert (tokens + [token])[1..] == tokens[1..] + [token];
      BudgetAppend(tokens[1..], token);
    } else {
      assert (tokens + [token])[1..] == [];
    }
  }

  lemma {:induction false} BudgetBounded(tokens: seq<Token>)
    ensures Budget(tokens) <= MAX_RETRIES * |tokens|
  {
    if tokens != [] {
      BudgetBounded(tokens[1..]);
    }
  }

  // ----- what the queue's operations do to its two fields -----

  datatype Retries = Retries(retrying: set<Key>, tokens: seq<Token>)

  function Pushed(p: Retries, token: Token): Retries {
    if |p.tokens| < RETRY_QUEUE_SIZE then p.(tokens := p.tokens + [token])
    else p.(retrying := p.retrying - {token.key})
  }

  function Scheduled(p: Retries, key: Key, verdict: Verdict): Retries {
    if Final(verdict) || key in p.retrying then p
    else Pushed(p.(retrying := p.retrying + {key}), Token(key, 0))
  }

  function Returned(p: Retries, token: Token, verdict: Verdict): Retries {
    if Final(verdict) || token.attempt + 1 >= MAX_RETRIES then p.(retrying := p.retrying - {token.key})
    else Pushed(p, Token(token.key, token.attempt + 1))
  }

  function RetriesOf(m: Machine): Retries { Retries(m.retrying, m.queue) }

  /** The protocol's scheduling, and its push if it comes to one. */
  function ScheduleAndPush(m: Machine, t: nat, snapshot: DesiredMount, verdict: Verdict): Machine
    requires t in m.threads
  {
    var m' := ScheduleStep(m, t, snapshot, verdict);
    if m'.threads[t].stage.Enqueue? then PushStep(m', t, m'.threads[t].stage.token) else m'
  }

  /** A pass and a worker do to the machine's queue, uninterrupted, what Schedule and Return do to theirs. */
  lemma QueueIsProtocols(m: Machine, t: nat, snapshot: DesiredMount, verdict: Verdict)
    requires t in m.threads && m.threads[t].stage == Reported(snapshot, verdict)
    ensures m.threads[t].role.Pass? ==>
              RetriesOf(ScheduleAndPush(m, t, snapshot, verdict)) == Scheduled(RetriesOf(m), KeyOf(snapshot), verdict)
    ensures forall token :: m.threads[t].role == Worker(Some(token)) ==>
              RetriesOf(ScheduleAndPush(m, t, snapshot, verdict)) == Returned(RetriesOf(m), token, verdict)
  {
    var m' := ScheduleStep(m, t, snapshot, verdict);
    if m'.threads[t].stage.Enqueue? {
      assert RetriesOf(PushStep(m', t, m'.threads[t].stage.token)) == Pushed(RetriesOf(m'), m'.threads[t].stage.token);
    }
  }

  class RetryQueue {
    var retrying: set<Key>
    var tokens: seq<Token>

    /** Every waiting key has one token, in the queue or held by a worker, and the queue is bounded. */
    ghost predicate Valid(held: set<Key>)
      reads this
    {
      && |tokens| <= RETRY_QUEUE_SIZE
      && (forall i :: 0 <= i < |tokens| ==> tokens[i].attempt < MAX_RETRIES && tokens[i].key !in held)
      && (forall i, j :: 0 <= i < j < |tokens| ==> tokens[i].key != tokens[j].key)
      && retrying == held + QueuedKeys(tokens)
    }

    constructor ()
      ensures Valid({}) && tokens == []
    {
      retrying, tokens := {}, [];
    }

    ghost function Now(): Retries
      reads this
    {
      Retries(retrying, tokens)
    }

    /** A retryable error queues its key once; a full queue drops it. */
    method Schedule(key: Key, verdict: Verdict)
      requires Valid({})
      modifies this
      ensures Valid({}) && Now() == Scheduled(old(Now()), key, verdict)
      ensures old(retrying) <= retrying
      ensures !Final(verdict) ==> key in retrying || |tokens| == 4096
    {
      if Final(verdict) || key in retrying {
        return;
      }
      retrying := retrying + {key};
      if |tokens| < RETRY_QUEUE_SIZE {
        QueuedAppend(tokens, Token(key, 0));
        tokens := tokens + [Token(key, 0)];
      } else {
        retrying := retrying - {key};
      }
    }

    method Take() returns (token: Token)
      requires Valid({}) && tokens != []
      modifies this
      ensures Valid({token.key}) && retrying == old(retrying)
      ensures [token] + tokens == old(tokens) && token.attempt < MAX_RETRIES
      ensures Budget(tokens) + MAX_RETRIES - token.attempt == Budget(old(tokens))
    {
      QueuedHead(tokens);
      token := tokens[0];
      tokens := tokens[1..];
    }

    /** After its reconcile a token is given up, or queued again with one more attempt. */
    method Return(token: Token, verdict: Verdict) returns (again: bool)
      requires Valid({token.key}) && token.attempt < MAX_RETRIES
      modifies this
      ensures Valid({})
      ensures Now() == Returned(old(Now()), token, verdict)
      ensures again <==> token.key in retrying
      ensures !again ==> Final(verdict) || token.attempt + 1 == 5 || |tokens| == 4096
      ensures Budget(tokens) < Budget(old(tokens)) + MAX_RETRIES - token.attempt
    {
      again := false;
      if Final(verdict) || token.attempt + 1 >= MAX_RETRIES {
        retrying := retrying - {token.key};
      } else if |tokens| < RETRY_QUEUE_SIZE {
        QueuedAppend(tokens, Token(token.key, token.attempt + 1));
        BudgetAppend(tokens, Token(token.key, token.attempt + 1));
        tokens := tokens + [Token(token.key, token.attempt + 1)];
        again := true;
      } else {
        retrying := retrying - {token.key};
      }
    }

    /** The record of a held token is gone. */
    method GiveUp(token: Token)
      requires Valid({token.key})
      modifies this
      ensures Valid({}) && tokens == old(tokens) && retrying == old(retrying) - {token.key}
    {
      retrying := retrying - {token.key};
    }
  }
}
