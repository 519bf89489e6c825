/**
 The file checkpoint store (src/sf2loki/state/file_store.py): a cached JSON document, a leadership fence and
 the epoch fence that stands in for a compare-and-swap. The reserved epoch entry of the document is a field of
 its own here, and the fresh read and the write of an epoch-fenced operation are one step.
 */
module FileStore {
  import opened Options

  datatype Doc = Doc(entries: map<string, string>, epoch: Option<int>)

  const NO_ENTRIES := Doc(map[], None)

  datatype Op = Commit(items: map<string, string>) | Delete(key: string)

  datatype Outcome = Done | NotLeader | StaleLeader

  /** A newer leader has already written the document. */
  predicate Stale(doc: Doc, mine: Option<int>) {
    doc.epoch.Some? && mine.Some? && doc.epoch.value > mine.value
  }

  /** Whether an accepted operation writes at all: deleting a missing key does not. */
  predicate Writes(doc: Doc, op: Op) {
    op.Delete? ==> op.key in doc.entries
  }

  function Updated(doc: Doc, op: Op, mine: Option<int>): Doc {
    if !Writes(doc, op) then doc
    else
      var entries := if op.Commit? then doc.entries + op.items else doc.entries - {op.key};
      Doc(entries, if mine.Some? then mine else doc.epoch)
  }

  // ----- histories of epoch-fenced attempts by any number of replicas -----

  datatype Attempt = Attempt(op: Op, mine: Option<int>)

  predicate Lands(doc: Doc, a: Attempt) {
    !Stale(doc, a.mine) && Writes(doc, a.op)
  }

  function Step(doc: Doc, a: Attempt): Doc {
    if Stale(doc, a.mine) then doc else Updated(doc, a.op, a.mine)
  }

  /** The document after the first `n` attempts. */
  function DocAt(start: Doc, attempts: seq<Attempt>, n: nat): Doc
    requires n <= |attempts|
  {
    if n == 0 then start else Step(DocAt(start, attempts, n - 1), attempts[n - 1])
  }

  predicate NoOlder(later: Option<int>, earlier: Option<int>) {
    earlier.Some? ==> later.Some? && later.value >= earlier.value
  }

  /** The persisted epoch never decreases. */
  lemma {:induction false} EpochNeverDecreases(start: Doc, attempts: seq<Attempt>, i: nat, j: nat)
    requires i <= j <= |attempts|
    ensures NoOlder(DocAt(start, attempts, j).epoch, DocAt(start, attempts, i).epoch)
    decreases j
  {
    if i < j {
      EpochNeverDecreases(start, attempts, i, j - 1);
    }
  }

  /** Once a write under some epoch has landed, every later attempt under a smaller one raises and changes nothing. */
  lemma {:induction false} SmallerEpochsAreRejected(start: Doc, attempts: seq<Attempt>, i: nat, j: nat)
    requires i < j < |attempts|
    requires attempts[i].mine.Some? && attempts[j].mine.Some? && attempts[j].mine.value < attempts[i].mine.value
    requires Lands(DocAt(start, attempts, i), attempts[i])
    ensures Stale(DocAt(start, attempts, j), attempts[j].mine)
    ensures DocAt(start, attempts, j + 1) == DocAt(start, attempts, j)
  {
    EpochNeverDecreases(start, attempts, i + 1, j);
  }

  /** The epochs of the writes that landed follow each other in order. */
  lemma {:induction false} LandedEpochsAreOrdered(start: Doc, attempts: seq<Attempt>, i: nat, j: nat)
    requires i < j < |attempts| && attempts[i].mine.Some? && attempts[j].mine.Some?
    requires Lands(DocAt(start, attempts, i), attempts[i]) && Lands(DocAt(start, attempts, j), attempts[j])
    ensures attempts[i].mine.value <= attempts[j].mine.value
  {
    EpochNeverDecreases(start, attempts, i + 1, j);
  }

  /** An attempt is rejected exactly when a newer epoch was on file from the start or has landed since. */
  lemma {:induction false} StaleExactly(start: Doc, attempts: seq<Attempt>, n: nat, mine: Option<int>)
    requires n <= |attempts|
    ensures Stale(DocAt(start, attempts, n), mine) <==>
            mine.Some? && (Exceeds(start.epoch, mine.value) || exists i: nat :: i < n && LandsAbove(start, attempts, i, mine.value))
  {
    if n > 0 {
      StaleExactly(start, attempts, n - 1, mine);
      var doc, a := DocAt(start, attempts, n - 1), attempts[n - 1];
      if mine.Some? && Lands(doc, a) && Exceeds(a.mine, mine.value) {
        assert LandsAbove(start, attempts, n - 1, mine.value);
      }
    }
  }

  predicate Exceeds(epoch: Option<int>, mine: int) {
    epoch.Some? && epoch.value > mine
  }

  /** Attempt `i` landed under an epoch above `mine`. */
  predicate LandsAbove(start: Doc, attempts: seq<Attempt>, i: nat, mine: int)
    requires i < |attempts|
  {
    Lands(DocAt(start, attempts, i), attempts[i]) && Exceeds(attempts[i].mine, mine)
  }

  // ----- what the document says about one key -----

  function Value(doc: Doc, key: string): Option<string> {
    if key in doc.entries then Some(doc.entries[key]) else None
  }

  predicate Touches(op: Op, key: string) {
    if op.Commit? then key in op.items else op.key == key
  }

  /** What an operation that touches the key makes of it. */
  function Written(op: Op, key: string): Option<string>
    requires Touches(op, key)
  {
    if op.Commit? then Some(op.items[key]) else None
  }

  predicate LandsOn(start: Doc, attempts: seq<Attempt>, i: nat, key: string)
    requires i < |attempts|
  {
    Lands(DocAt(start, attempts, i), attempts[i]) && Touches(attempts[i].op, key)
  }

  /** The value of a key is that of the last landed attempt that touched it ... */
  lemma {:induction false} LastLandedWins(start: Doc, attempts: seq<Attempt>, n: nat, key: string, i: nat)
    requires i < n <= |attempts| && LandsOn(start, attempts, i, key)
    requires forall j: nat :: i < j < n ==> !LandsOn(start, attempts, j, key)
    ensures Value(DocAt(start, attempts, n), key) == Written(attempts[i].op, key)
    decreases n
  {
    if i < n - 1 {
      LastLandedWins(start, attempts, n - 1, key, i);
      assert !LandsOn(start, attempts, n - 1, key);
    }
  }

  /** ... and the one it had at the start when none did. */
  lemma {:induction false} UntouchedStays(start: Doc, attempts: seq<Attempt>, n: nat, key: string)
    requires n <= |attempts| && forall j: nat :: j < n ==> !LandsOn(start, attempts, j, key)
    ensures Value(DocAt(start, attempts, n), key) == Value(start, key)
  {
    if n > 0 {
      UntouchedStays(start, attempts, n - 1, key);
      assert !LandsOn(start, attempts, n - 1, key);
    }
  }

  // ----- the store object -----

  class StateFile {
    var doc: Option<Doc>

    constructor ()
      ensures doc == None
    {
      doc := None;
    }

    /** What a read that bypasses the cache delivers. */
    function Fresh(): Doc
      reads this
    {
      if doc.Some? then doc.value else NO_ENTRIES
    }
  }

  /** `leads` is what the installed fence would say, `mine` what the installed epoch source returns. */
  class FileCheckpointStore {
    const file: StateFile
    var cache: Option<Doc>
    var fenced: bool
    var epochFenced: bool

    constructor (file: StateFile)
      ensures this.file == file && cache == None && !fenced && !epochFenced
    {
      this.file := file;
      cache, fenced, epochFenced := None, false, false;
    }

    /** The document an unfenced operation starts from: the cache once loaded. */
    function Loaded(): Doc
      reads this, file
    {
      if cache.Some? then cache.value else file.Fresh()
    }

    method SetFence()
      modifies this`fenced
      ensures fenced
    {
      fenced := true;
    }

    method SetEpoch()
      modifies this`epochFenced
      ensures epochFenced
    {
      epochFenced := true;
    }

    /** Whatever another leader wrote meanwhile is what this store starts from again. */
    method Reset()
      modifies this`cache
      ensures Loaded() == file.Fresh()
    {
      cache := None;
    }

    method Load(key: string) returns (value: Option<string>)
      modifies this`cache
      ensures cache == Some(old(Loaded()))
      ensures value == if key in old(Loaded()).entries then Some(old(Loaded()).entries[key]) else None
    {
      if cache.None? {
        cache := Some(file.Fresh());
      }
      value := if key in cache.value.entries then Some(cache.value.entries[key]) else None;
    }

    method Flush()
      requires cache.Some?
      modifies file
      ensures file.doc == cache
    {
      file.doc := cache;
    }

    method CommitMany(items: map<string, string>, leads: bool, mine: Option<int>) returns (outcome: Outcome)
      modifies this`cache, file
      ensures fenced && !leads ==> outcome == NotLeader
      ensures (!fenced || leads) && epochFenced ==>
                outcome == if Stale(old(file.Fresh()), mine) then StaleLeader else Done
      ensures (!fenced || leads) && !epochFenced ==> outcome == Done
      ensures outcome != Done ==> cache == old(cache) && file.doc == old(file.doc)
      ensures outcome == Done ==>
                && cache == file.doc
                && file.doc == Some(if epochFenced then Step(old(file.Fresh()), Attempt(Commit(items), mine))
                                    else Updated(old(Loaded()), Commit(items), None))
      ensures outcome == Done ==>
                var before := old(if epochFenced then file.Fresh() else Loaded());
                forall key :: Value(file.doc.value, key) == if key in items then Some(items[key]) else Value(before, key)
    {
      if fenced && !leads {
        return NotLeader;
      }
      if epochFenced {
        var doc := file.Fresh();
        if doc.epoch.Some? && mine.Some? && doc.epoch.value > mine.value {
          return StaleLeader;
        }
        doc := doc.(entries := doc.entries + items);
        if mine.Some? {
          doc := doc.(epoch := mine);
        }
        cache := Some(doc);
      } else {
        if cache.None? {
          cache := Some(file.Fresh());
        }
        cache := Some(cache.value.(entries := cache.value.entries + items));
      }
      Flush();
      outcome := Done;
    }

    method DeleteKey(key: string, leads: bool, mine: Option<int>) returns (outcome: Outcome)
      modifies this`cache, file
      ensures fenced && !leads ==> outcome == NotLeader
      ensures (!fenced || leads) && epochFenced ==>
                outcome == if Stale(old(file.Fresh()), mine) then StaleLeader else Done
      ensures (!fenced || leads) && !epochFenced ==> outcome == Done
      ensures outcome != Done ==> cache == old(cache) && file.doc == old(file.doc)
      ensures outcome == Done ==>
                var before := old(if epochFenced then file.Fresh() else Loaded());
                var after := if epochFenced then Step(before, Attempt(Delete(key), mine)) else Updated(before, Delete(key), None);
                && cache == Some(after)
                && file.doc == (if Writes(before, Delete(key)) then Some(after) else old(file.doc))
                && (forall k :: Value(after, k) == if k == key then None else Value(before, k))
                && (key !in before.entries ==> file.doc == old(file.doc))
    {
      if fenced && !leads {
        return NotLeader;
      }
      if epochFenced {
        var doc := file.Fresh();
        if doc.epoch.Some? && mine.Some? && doc.epoch.value > mine.value {
          return StaleLeader;
        }
        if key !in doc.entries {
          cache := Some(doc);
          return Done;
        }
        doc := doc.(entries := doc.entries - {key});
        if mine.Some? {
          doc := doc.(epoch := mine);
        }
        cache := Some(doc);
      } else {
        if cache.None? {
          cache := Some(file.Fresh());
        }
        if key !in cache.value.entries {
          return Done;
        }
        cache := Some(cache.value.(entries := cache.value.entries - {key}));
      }
      Flush();
      outcome := Done;
    }
  }
}
