/**
 The read cache of the user configuration. Get holds the cache mutex over its read and its store; set writes the row
 first and takes the mutex only to drop the key. Between the two a stale value may be cached, and only then.
 */
module ConfigCache {
  import opened Wrappers

  /** A stored value, in the clear or sealed under an unlock password. */
  datatype Text = Clear(text: string) | Sealed(text: string, password: string)

  datatype Entry = Entry(value: Text, encrypted: bool)

  /** A Get that has read the row, holds the mutex and has not stored the value yet. */
  datatype Flight = Flight(who: nat, key: string, password: string, value: Text)

  type Table = map<string, Entry>

  /** `writing` are the sets between their two steps. */
  datatype State = State(
    table: Table,
    cache: map<string, map<string, Text>>,
    lock: Option<Flight>,
    writing: set<(nat, string)>)

  datatype Step =
    | BeginGet(who: nat, key: string, password: string)
    | EndGet(who: nat)
    | WriteRow(who: nat, key: string, value: string, password: string, ignore: bool)
    | DropKey(who: nat, key: string)

  datatype Failure = CannotDecrypt

  /** The uncached read. */
  function Read(table: Table, key: string, password: string): Result<Text, Failure>
  {
    if key !in table then Ok(Clear(""))
    else
      var e := table[key];
      if e.value != Clear("") && password != "" && e.encrypted then
        (if e.value.Sealed? && e.value.password == password then Ok(Clear(e.value.text)) else Err(CannotDecrypt))
      else Ok(e.value)
  }

  function EntryOf(value: string, password: string): Entry
  {
    if password != "" then Entry(Sealed(value, password), true) else Entry(Clear(value), false)
  }

  /** SetIgnore leaves an existing row alone, SetUpdate overwrites it. */
  function Written(table: Table, key: string, value: string, password: string, ignore: bool): Table
  {
    if ignore && key in table then table else table[key := EntryOf(value, password)]
  }

  /**
   A read fails exactly for an encrypted value, other than the empty one, that the password given does not unseal. It
   unseals only what is marked as encrypted, and without a password it answers the row as it is stored.
   */
  lemma ReadUnseals(table: Table, key: string, password: string)
    ensures key !in table ==> Read(table, key, password) == Ok(Clear(""))
    ensures key in table ==>
              var e := table[key];
              var sealed := e.encrypted && password != "" && e.value != Clear("");
              && (Read(table, key, password).Err? <==>
                    sealed && forall text :: e.value != Sealed(text, password))
              && (!sealed ==> Read(table, key, password) == Ok(e.value))
              && (forall text :: sealed && e.value == Sealed(text, password) ==>
                    Read(table, key, password) == Ok(Clear(text)))
  {
    if key in table && table[key].value.Sealed? {
      assert table[key].value == Sealed(table[key].value.text, table[key].value.password);
    }
  }

  /**
   A write touches its own key alone. SetIgnore keeps an existing row as it is; every other write is read back with its
   password, and a sealed value with no other one.
   */
  lemma WriteIsReadBack(table: Table, key: string, value: string, password: string, ignore: bool, other: string)
    ensures var table' := Written(table, key, value, password, ignore);
            && key in table' && (ignore && key in table ==> table' == table)
            && (!ignore || key !in table ==>
                  && Read(table', key, password) == Ok(Clear(value))
                  && (password != "" && other != "" && other != password ==> Read(table', key, other).Err?))
            && (other != key ==>
                  && (other in table' <==> other in table) && (other in table ==> table'[other] == table[other]))
  {
    var table' := Written(table, key, value, password, ignore);
    assert other != key ==> Read(table', other, "") == Read(table, other, "");
  }

  predicate Cached(hash: string -> string, s: State, key: string, password: string)
  {
    key in s.cache && hash(password) in s.cache[key]
  }

  function Stored(cache: map<string, map<string, Text>>, key: string, passwordHash: string, value: Text): map<string,
                  map<string, Text>>
  {
    var inner := if key in cache then cache[key] else map[];
    cache[key := inner[passwordHash := value]]
  }

  /** A step that needs the mutex does nothing while another Get holds it. */
  function Next(hash: string -> string, s: State, step: Step): State
  {
    match step
    case BeginGet(who, key, password) =>
      if s.lock.Some? || Cached(hash, s, key, password) then s
      else
        (match Read(s.table, key, password)
         case Ok(value) => s.(lock := Some(Flight(who, key, password, value)))
         case Err(_) => s)
    case EndGet(who) =>
      if s.lock.None? || s.lock.value.who != who then s
      else
        var f := s.lock.value;
        s.(cache := Stored(s.cache, f.key, hash(f.password), f.value), lock := None)
    case WriteRow(who, key, value, password, ignore) =>
      s.(table := Written(s.table, key, value, password, ignore), writing := s.writing + {(who, key)})
    case DropKey(who, key) =>
      if s.lock.Some? || (who, key) !in s.writing then s
      else s.(cache := s.cache - {key}, writing := s.writing - {(who, key)})
  }

  function Run(hash: string -> string, s: State, steps: seq<Step>): State
  {
    if |steps| == 0 then s else Next(hash, Run(hash, s, steps[..|steps| - 1]), steps[|steps| - 1])
  }

  predicate BeingSet(s: State, key: string)
  {
    exists w :: w in s.writing && w.1 == key
  }

  ghost predicate Injective(hash: string -> string)
  {
    forall a, b :: hash(a) == hash(b) ==> a == b
  }

  /** A value that differs from an uncached read belongs to a key that is being set. */
  ghost predicate Agrees(hash: string -> string, s: State)
  {
    && (forall key, password :: Cached(hash, s, key, password) && !BeingSet(s, key) ==>
          Ok(s.cache[key][hash(password)]) == Read(s.table, key, password))
    && (s.lock.Some? && !BeingSet(s, s.lock.value.key) ==>
          Ok(s.lock.value.value) == Read(s.table, s.lock.value.key, s.lock.value.password))
  }

  lemma StepKeepsAgreement(hash: string -> string, s: State, step: Step)
    requires Injective(hash) && Agrees(hash, s)
    ensures Agrees(hash, Next(hash, s, step))
  {
    var s' := Next(hash, s, step);
    forall key, password | Cached(hash, s', key, password) && !BeingSet(s', key)
      ensures Ok(s'.cache[key][hash(password)]) == Read(s'.table, key, password)
    {
      NotSetBefore(hash, s, step, key);
      if step.EndGet? && s' != s && s.lock.value.key == key && hash(password) == hash(s.lock.value.password) {
        assert password == s.lock.value.password;
      } else {
        assert Cached(hash, s, key, password);
      }
    }
    if s'.lock.Some? && !BeingSet(s', s'.lock.value.key) {
      NotSetBefore(hash, s, step, s'.lock.value.key);
    }
  }

  /** A key that is not being set afterwards was not before either, or has just been dropped; its row is the same. */
  lemma NotSetBefore(hash: string -> string, s: State, step: Step, key: string)
    requires !BeingSet(Next(hash, s, step), key)
    ensures !BeingSet(s, key) || (key !in Next(hash, s, step).cache && Next(hash, s, step).lock.None?)
    ensures forall password :: Read(Next(hash, s, step).table, key, password) == Read(s.table, key, password)
  {
    var s' := Next(hash, s, step);
    if step.WriteRow? {
      assert (step.who, step.key) in s'.writing;
    }
    if BeingSet(s, key) {
      var w :| w in s.writing && w.1 == key;
      assert w !in s'.writing;
    }
  }

  /** In every interleaving of gets and sets. */
  lemma {:induction false} CacheAgrees(hash: string -> string, steps: seq<Step>, table: Table)
    requires Injective(hash)
    ensures Agrees(hash, Run(hash, State(table, map[], None, {}), steps))
  {
    if |steps| > 0 {
      CacheAgrees(hash, steps[..|steps| - 1], table);
      StepKeepsAgreement(hash, Run(hash, State(table, map[], None, {}), steps[..|steps| - 1]), steps[|steps| - 1]);
    }
  }

  /** What a Get answers, decided when it takes the mutex. */
  function Answer(hash: string -> string, s: State, key: string, password: string): Result<Text, Failure>
  {
    if Cached(hash, s, key, password) then Ok(s.cache[key][hash(password)]) else Read(s.table, key, password)
  }

  /** A Get that starts while nobody sets its key answers the current row. */
  lemma GetIsCurrent(hash: string -> string, steps: seq<Step>, table: Table, key: string, password: string)
    requires Injective(hash)
    ensures var s := Run(hash, State(table, map[], None, {}), steps);
            !BeingSet(s, key) ==> Answer(hash, s, key, password) == Read(s.table, key, password)
  {
    CacheAgrees(hash, steps, table);
  }

  /** During a set the stale value may be served: the bound is exact. */
  lemma StaleWhileBeingSet(hash: string -> string, key: string, former: string, latter: string)
    requires former != latter
    ensures var steps := [BeginGet(1, key, ""), WriteRow(2, key, latter, "", false), EndGet(1)];
            var s := Run(hash, State(map[key := Entry(Clear(former), false)], map[], None, {}), steps);
            && Answer(hash, s, key, "") == Ok(Clear(former)) && Read(s.table, key, "") == Ok(Clear(latter))
            && BeingSet(s, key)
  {
    var a, b, c := BeginGet(1, key, ""), WriteRow(2, key, latter, "", false), EndGet(1);
    var s0 := State(map[key := Entry(Clear(former), false)], map[], None, {});
    assert [a, b, c][..2] == [a, b] && [a, b][..1] == [a] && [a][..0] == [];
    assert Run(hash, s0, [a]) == Next(hash, s0, a);
    assert Run(hash, s0, [a, b]) == Next(hash, Next(hash, s0, a), b);
    var s := Run(hash, s0, [a, b, c]);
    assert (2, key) in s.writing;
  }

  /** The cache key is a hash of the password: two passwords that collide are told each other's values. */
  lemma CollisionServesWrongPassword(hash: string -> string, key: string, value: string, right: string, wrong: string)
    requires right != wrong && right != "" && wrong != "" && hash(right) == hash(wrong)
    ensures var steps := [BeginGet(1, key, right), EndGet(1)];
            var s := Run(hash, State(map[key := EntryOf(value, right)], map[], None, {}), steps);
            && Answer(hash, s, key, wrong) == Ok(Clear(value)) && Read(s.table, key, wrong).Err? && s.writing == {}
  {
    var a, b := BeginGet(1, key, right), EndGet(1);
    var s0 := State(map[key := EntryOf(value, right)], map[], None, {});
    assert [a, b][..1] == [a] && [a][..0] == [];
    assert Run(hash, s0, [a]) == Next(hash, s0, a);
  }

  // ---------- the methods ----------

  lemma {:induction false} LockHeld(hash: string -> string, s: State, env: seq<Step>)
    requires s.lock.Some? && forall step <- env :: step.who != s.lock.value.who
    ensures Run(hash, s, env).lock == s.lock && Run(hash, s, env).cache == s.cache
  {
    if |env| > 0 {
      assert forall step <- env[..|env| - 1] :: step in env;
      LockHeld(hash, s, env[..|env| - 1]);
      assert env[|env| - 1] in env;
    }
  }

  lemma {:induction false} RunKeepsAgreement(hash: string -> string, s: State, steps: seq<Step>)
    requires Injective(hash) && Agrees(hash, s)
    ensures Agrees(hash, Run(hash, s, steps))
  {
    if |steps| > 0 {
      RunKeepsAgreement(hash, s, steps[..|steps| - 1]);
      StepKeepsAgreement(hash, Run(hash, s, steps[..|steps| - 1]), steps[|steps| - 1]);
    }
  }

  lemma {:induction false} OwnWriteStands(hash: string -> string, s: State, env: seq<Step>, me: nat, key: string)
    requires (me, key) in s.writing && forall step <- env :: step.who != me
    ensures (me, key) in Run(hash, s, env).writing
  {
    if |env| > 0 {
      assert forall step <- env[..|env| - 1] :: step in env;
      OwnWriteStands(hash, s, env[..|env| - 1], me, key);
      assert env[|env| - 1] in env;
    }
  }

  class Config {
    const hash: string -> string
    var table: Table
    var cache: map<string, map<string, Text>>
    var lock: Option<Flight>
    ghost var writing: set<(nat, string)>

    constructor (hash: string -> string, table: Table)
      requires Injective(hash)
      ensures this.hash == hash && Abs() == State(table, map[], None, {}) && Agrees(hash, Abs())
    {
      this.hash, this.table := hash, table;
      cache, lock, writing := map[], None, {};
    }

    ghost function Abs(): State
      reads this
    {
      State(table, cache, lock, writing)
    }

    /** Other goroutines, between two steps of `me`. */
    method Interference(ghost me: nat) returns (ghost env: seq<Step>)
      modifies this
      ensures (forall step <- env :: step.who != me) && Abs() == Run(hash, old(Abs()), env)
    {
      env := [];
    }

    /** Waits for the mutex: whoever holds it finishes its Get. */
    method Acquire(me: nat) returns (ghost env: seq<Step>)
      requires lock.Some? ==> lock.value.who != me
      modifies this
      ensures (forall step <- env :: step.who != me) && Abs() == Run(hash, old(Abs()), env)
      ensures lock.None?
    {
      env := [];
      if lock.Some? {
        var f := lock.value;
        env := [EndGet(f.who)];
        assert env[..0] == [];
        cache, lock := Stored(cache, f.key, hash(f.password), f.value), None;
      }
    }

    /** Get, from the moment it holds the mutex. Rows may be written meanwhile, but no key is dropped. */
    method Get(me: nat, key: string, password: string) returns (r: Result<Text, Failure>, ghost env: seq<Step>)
      requires Injective(hash) && Agrees(hash, Abs()) && lock.None?
      modifies this
      ensures Agrees(hash, Abs()) && lock.None?
      ensures r == Answer(hash, old(Abs()), key, password)
      ensures !BeingSet(old(Abs()), key) ==> r == Read(old(table), key, password)
      ensures r.Ok? ==> Cached(hash, Abs(), key, password) && cache[key][hash(password)] == r.value
      ensures forall step <- env :: step.who != me
      ensures Abs() == Next(hash, Run(hash, Next(hash, old(Abs()), BeginGet(me, key, password)), env), EndGet(me))
    {
      env := [];
      if key in cache && hash(password) in cache[key] {
        return Ok(cache[key][hash(password)]), env;
      }
      r := Read(table, key, password);
      if r.Err? {
        return;
      }
      ghost var s0 := Abs();
      StepKeepsAgreement(hash, s0, BeginGet(me, key, password));
      lock := Some(Flight(me, key, password, r.value));
      ghost var s1 := Abs();
      env := Interference(me);
      RunKeepsAgreement(hash, s1, env);
      LockHeld(hash, s1, env);
      StepKeepsAgreement(hash, Abs(), EndGet(me));
      cache, lock := Stored(cache, key, hash(password), r.value), None;
    }

    /** set: write the row, then take the mutex and drop the key, whether the row was written or kept. */
    method Set(me: nat, key: string, value: string, password: string, ignore: bool) returns (ghost env: seq<Step>)
      requires Injective(hash) && Agrees(hash, Abs()) && (me, key) !in writing
      requires lock.Some? ==> lock.value.who != me
      modifies this
      ensures Agrees(hash, Abs()) && (me, key) !in writing && key !in cache && lock.None?
      ensures forall step <- env :: step.who != me
      ensures Abs() == Next(hash, Run(hash, Next(hash, old(Abs()), WriteRow(me, key, value, password, ignore)), env),
                            DropKey(me, key))
    {
      ghost var s0 := Abs();
      StepKeepsAgreement(hash, s0, WriteRow(me, key, value, password, ignore));
      if !(ignore && key in table) {
        table := table[key := EntryOf(value, password)];
      }
      writing := writing + {(me, key)};
      ghost var s1 := Abs();
      env := Acquire(me);
      RunKeepsAgreement(hash, s1, env);
      OwnWriteStands(hash, s1, env, me, key);
      StepKeepsAgreement(hash, Abs(), DropKey(me, key));
      cache := cache - {key};
      writing := writing - {(me, key)};
    }
  }
}
