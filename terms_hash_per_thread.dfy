/**
 * The per-thread shell of the terms hash: one indexing context per worker
 * thread, chained to a secondary context (term vectors) behind the primary
 * one (frequencies and positions). The shell decides which context is
 * primary, shares the primary's char pool with the secondary, resets the
 * pools, and drives the consumer stages through start, finish and abort.
 *
 * The pools, consumers and doc writers are not part of this model beyond
 * what the shell calls: a pool has an amount in use and a reset, a consumer
 * hands out the doc writer its document produced, a doc writer has a `next`
 * link. Every reset and every consumer call is recorded in a shared event
 * log, so that the order of the calls can be stated.
 */
module Index {

  datatype PoolKind = CharBlocks | IntBlocks | ByteBlocks

  /** A call made by the shell, as recorded in the event log. */
  datatype Event =
    | PoolReset(pool: BlockPool)
    | ConsumerStarted(consumer: ConsumerPerThread)
    | ConsumerFinished(consumer: ConsumerPerThread)
    | ConsumerAborted(consumer: ConsumerPerThread)

  /** The record of calls, shared by all pools and consumers of a thread. */
  class EventLog {
    var events: seq<Event>

    constructor ()
      ensures events == []
    {
      events := [];
    }
  }

  /** A block pool (char, int or byte blocks): the amount in use and a reset. */
  class BlockPool {
    const kind: PoolKind
    const log: EventLog
    var used: nat

    constructor (kind: PoolKind, log: EventLog)
      ensures this.kind == kind && this.log == log && used == 0
    {
      this.kind := kind;
      this.log := log;
      used := 0;
    }

    /** Gives every block back for reuse. */
    method Reset()
      modifies this, log
      ensures used == 0
      ensures log.events == old(log.events) + [PoolReset(this)]
    {
      used := 0;
      log.events := log.events + [PoolReset(this)];
    }
  }

  /** The serialisable result of one stage for one document, linked to the next stage's result. */
  class DocWriter {
    var next: DocWriter?

    constructor ()
      ensures next == null
    {
      next := null;
    }

    method SetNext(d: DocWriter?)
      modifies this
      ensures next == d
    {
      next := d;
    }
  }

  /** A consumer stage's per-thread handle. `doc` is what its current document produced. */
  class ConsumerPerThread {
    const log: EventLog
    var doc: DocWriter?

    constructor (log: EventLog)
      ensures this.log == log && doc == null
    {
      this.log := log;
      doc := null;
    }

    method StartDocument()
      modifies log
      ensures log.events == old(log.events) + [ConsumerStarted(this)]
    {
      log.events := log.events + [ConsumerStarted(this)];
    }

    method FinishDocument() returns (d: DocWriter?)
      modifies log
      ensures d == doc
      ensures log.events == old(log.events) + [ConsumerFinished(this)]
    {
      d := doc;
      log.events := log.events + [ConsumerFinished(this)];
    }

    method Abort()
      modifies log
      ensures log.events == old(log.events) + [ConsumerAborted(this)]
    {
      log.events := log.events + [ConsumerAborted(this)];
    }
  }

  /** A terms hash of the writer: one consumer chain stage, with the stage after it, if any. */
  class TermsHash {
    const nextTermsHash: TermsHash?

    constructor (nextTermsHash: TermsHash?)
      ensures this.nextTermsHash == nextTermsHash
    {
      this.nextTermsHash := nextTermsHash;
    }
  }

  /** The descriptor of a field. */
  datatype FieldInfo = FieldInfo(name: string)

  /** The per-field accumulator a context hands out for a field. */
  class TermsHashPerField {
    const perThread: TermsHashPerThread
    const nextPerThread: TermsHashPerThread?
    const fieldInfo: FieldInfo

    constructor (perThread: TermsHashPerThread, nextPerThread: TermsHashPerThread?, fieldInfo: FieldInfo)
      ensures this.perThread == perThread && this.nextPerThread == nextPerThread && this.fieldInfo == fieldInfo
    {
      this.perThread := perThread;
      this.nextPerThread := nextPerThread;
      this.fieldInfo := fieldInfo;
    }
  }

  class TermsHashPerThread {
    const log: EventLog
    const termsHash: TermsHash
    const nextTermsHash: TermsHash?
    const primaryPerThread: TermsHashPerThread?

    var primary: bool
    var consumer: ConsumerPerThread?
    var charPool: BlockPool?
    var intPool: BlockPool?
    var bytePool: BlockPool?
    var nextPerThread: TermsHashPerThread?

    /** The state the constructor leaves: nothing allocated yet, not primary. */
    ghost predicate Uninitialized()
      reads this
    {
      && !primary
      && consumer == null && charPool == null && intPool == null && bytePool == null
      && nextPerThread == null
    }

    /** This context's own parts are in place, and its own pools and consumer record into its log. */
    ghost predicate Wired()
      reads this
    {
      && consumer != null && charPool != null && intPool != null && bytePool != null
      && charPool.kind == CharBlocks && intPool.kind == IntBlocks && bytePool.kind == ByteBlocks
      && consumer.log == log && intPool.log == log && bytePool.log == log
      && (primary ==> charPool.log == log)
    }

    /**
     * An initialised context: a primary has a secondary behind it, which has
     * no next, is not primary, shares the primary's char pool and has int
     * and byte pools and a consumer of its own.
     */
    ghost predicate Valid()
      reads this, nextPerThread
    {
      && Wired()
      && (primary <==> nextPerThread != null)
      && (nextPerThread != null ==>
            && nextPerThread != this
            && nextPerThread.Wired()
            && nextPerThread.log == log
            && !nextPerThread.primary
            && nextPerThread.nextPerThread == null
            && nextPerThread.charPool == charPool
            && nextPerThread.intPool != intPool
            && nextPerThread.bytePool != bytePool
            && nextPerThread.consumer != consumer)
    }

    constructor (log: EventLog, termsHash: TermsHash, nextTermsHash: TermsHash?,
                 primaryPerThread: TermsHashPerThread?)
      ensures Uninitialized()
      ensures this.log == log && this.termsHash == termsHash
      ensures this.nextTermsHash == nextTermsHash && this.primaryPerThread == primaryPerThread
    {
      this.log := log;
      this.termsHash := termsHash;
      this.nextTermsHash := nextTermsHash;
      this.primaryPerThread := primaryPerThread;
      primary := false;
      consumer := null;
      charPool := null;
      intPool := null;
      bytePool := null;
      nextPerThread := null;
    }

    /**
     * `initialize`: a context with a next terms hash is primary and
     * allocates the char pool; one without takes its primary's char pool.
     * Each context allocates its own int and byte pools and its consumer;
     * a primary then creates and initialises its secondary.
     */
    method Initialize()
      requires Uninitialized()
      requires nextTermsHash != null ==> nextTermsHash.nextTermsHash == null
      requires nextTermsHash == null ==>
        primaryPerThread != null && primaryPerThread.charPool != null &&
        primaryPerThread.charPool.kind == CharBlocks
      modifies this
      decreases if nextTermsHash == null then 0 else 1
      ensures Valid()
      ensures primary <==> nextTermsHash != null
      ensures primary ==> fresh(charPool)
      ensures !primary ==> charPool == primaryPerThread.charPool
      ensures fresh(intPool) && fresh(bytePool) && fresh(consumer)
      ensures intPool.used == 0 && bytePool.used == 0
      ensures primary ==> charPool.used == 0
      ensures nextPerThread != null <==> nextTermsHash != null
      ensures nextPerThread != null ==>
        && fresh(nextPerThread)
        && nextPerThread.termsHash == nextTermsHash
        && nextPerThread.primaryPerThread == this
        && fresh(nextPerThread.intPool) && fresh(nextPerThread.bytePool) && fresh(nextPerThread.consumer)
        && nextPerThread.intPool.used == 0 && nextPerThread.bytePool.used == 0
    {
      consumer := new ConsumerPerThread(log);
      if nextTermsHash != null {
        charPool := new BlockPool(CharBlocks, log);
        primary := true;
      } else {
        charPool := primaryPerThread.charPool;
        primary := false;
      }
      intPool := new BlockPool(IntBlocks, log);
      bytePool := new BlockPool(ByteBlocks, log);
      if nextTermsHash != null {
        var next := new TermsHashPerThread(log, nextTermsHash, nextTermsHash.nextTermsHash, this);
        next.Initialize();
        nextPerThread := next;
      }
    }

    /** `addField`: a new per-field accumulator bound to this context and its secondary. */
    method AddField(fieldInfo: FieldInfo) returns (perField: TermsHashPerField)
      ensures fresh(perField)
      ensures perField.perThread == this && perField.nextPerThread == nextPerThread
      ensures perField.fieldInfo == fieldInfo
    {
      perField := new TermsHashPerField(this, nextPerThread, fieldInfo);
    }

    /** The resets `Reset` performs, in order. */
    ghost function ResetEvents(): seq<Event>
      reads this
      requires Wired()
    {
      [PoolReset(intPool), PoolReset(bytePool)] + (if primary then [PoolReset(charPool)] else [])
    }

    /**
     * `reset`: resets the int and byte pools, and the char pool only when
     * primary, so that a secondary never clears the shared char pool. The
     * argument has no effect.
     */
    method Reset(recyclePostings: bool)
      requires Wired()
      modifies intPool, bytePool, charPool, log
      ensures intPool.used == 0 && bytePool.used == 0
      ensures charPool.used == if primary then 0 else old(charPool.used)
      ensures log.events == old(log.events) + ResetEvents()
    {
      intPool.Reset();
      bytePool.Reset();
      if primary {
        charPool.Reset();
      }
    }

    /** The pools an abort may reset: this context's and its secondary's. */
    ghost function Pools(): set<object>
      reads this, nextPerThread
      requires Valid()
    {
      {intPool, bytePool, charPool} +
      (if nextPerThread != null then {nextPerThread.intPool, nextPerThread.bytePool} else {})
    }

    /** The calls `Abort` makes, in order. */
    ghost function AbortEvents(): seq<Event>
      reads this, nextPerThread
      requires Valid()
    {
      ResetEvents() + [ConsumerAborted(consumer)] +
      (if nextPerThread != null then nextPerThread.ResetEvents() + [ConsumerAborted(nextPerThread.consumer)] else [])
    }

    /**
     * `abort`: reset with recycling, then the own consumer's abort, then the
     * secondary's abort (its own reset and its consumer's abort).
     */
    method Abort()
      requires Valid()
      modifies Pools(), log
      decreases if nextPerThread == null then 0 else 1
      ensures intPool.used == 0 && bytePool.used == 0
      ensures charPool.used == if primary then 0 else old(charPool.used)
      ensures nextPerThread != null ==> nextPerThread.intPool.used == 0 && nextPerThread.bytePool.used == 0
      ensures log.events == old(log.events) + AbortEvents()
    {
      Reset(true);
      consumer.Abort();
      if nextPerThread != null {
        nextPerThread.Abort();
      }
    }

    /** `startDocument`: starts the own consumer, then the secondary's consumer, once each. */
    method StartDocument()
      requires Valid()
      modifies log
      ensures log.events == old(log.events) + [ConsumerStarted(consumer)] +
        (if nextPerThread != null then [ConsumerStarted(nextPerThread.consumer)] else [])
    {
      consumer.StartDocument();
      if nextPerThread != null {
        nextPerThread.consumer.StartDocument();
      }
    }

    /**
     * `finishDocument`: finishes both consumers. Without a doc of its own the
     * result is the secondary's doc (possibly none); otherwise it is the own
     * doc, whose `next` now links to the secondary's doc.
     */
    method FinishDocument() returns (d: DocWriter?)
      requires Valid()
      modifies log, consumer.doc
      ensures log.events == old(log.events) + [ConsumerFinished(consumer)] +
        (if nextPerThread != null then [ConsumerFinished(nextPerThread.consumer)] else [])
      ensures var second := if nextPerThread != null then nextPerThread.consumer.doc else null;
        && (consumer.doc == null ==> d == second)
        && (consumer.doc != null ==> d == consumer.doc && consumer.doc.next == second)
    {
      var doc := consumer.FinishDocument();
      var doc2: DocWriter? := null;
      if nextPerThread != null {
        doc2 := nextPerThread.consumer.FinishDocument();
      }
      if doc == null {
        d := doc2;
      } else {
        doc.SetNext(doc2);
        d := doc;
      }
    }
  }

  // ---------------------------------------------------------------------
  // Worked examples: clients of the contracts above, with nothing of their own
  // to prove beyond those contracts.
  // ---------------------------------------------------------------------

  /** Worked example: a writer's two-stage chain over one thread; the secondary shares the primary's char pool. */
  method TwoStageChain() returns (p: TermsHashPerThread)
    ensures p.Valid() && p.primary && p.nextPerThread != null
    ensures !p.nextPerThread.primary && p.nextPerThread.charPool == p.charPool
    ensures fresh(p.log) && p.log.events == []
  {
    var log := new EventLog();
    var vectors := new TermsHash(null);
    var postings := new TermsHash(vectors);
    p := new TermsHashPerThread(log, postings, vectors, null);
    p.Initialize();
  }

  /** Worked example: one document through the two-stage chain; both stages start, and their docs are linked. */
  method TwoStageDocument()
  {
    var p := TwoStageChain();
    var s := p.nextPerThread;
    p.StartDocument();
    assert p.log.events == [ConsumerStarted(p.consumer), ConsumerStarted(s.consumer)];

    var own := new DocWriter();
    var vector := new DocWriter();
    p.consumer.doc := own;
    s.consumer.doc := vector;
    var d := p.FinishDocument();
    assert d == own && own.next == vector;
  }

  /** Worked example: only the primary's reset clears the shared char pool. */
  method TwoStageReset()
  {
    var p := TwoStageChain();
    var s := p.nextPerThread;
    p.charPool.used := 7;
    s.Reset(false);
    assert p.charPool.used == 7;
    p.Reset(false);
    assert p.charPool.used == 0;
  }
}
