/**
 * The instrumented cache of 0x02-redis_basic/exercise.py.
 *
 * `Cache.store` is decorated twice: call_history (outer) pushes str(data)
 * onto "Cache.store:inputs", calls count_calls, and pushes the returned key
 * onto "Cache.store:outputs"; count_calls (inner) sends INCRBY "Cache.store" 1
 * and then calls the undecorated store, which SETs the value under a fresh
 * key. The uuid4() key is a parameter here, and `lost` names the one backend
 * command of the call, if any, that fails to reach the server (redis-py then
 * raises ConnectionError, which propagates out of every wrapper). A reply
 * lost after the server ran the command is not modelled.
 */
module Cache {
  import opened Wrappers
  import Decimal
  import opened Backend

  /** A value handed to `store`: a str or an int (floats and bytes are not modelled). */
  datatype Data = Text(s: string) | Integer(n: int)

  /** str(data); for a str or an int this is also the text redis-py writes for it. */
  function Show(d: Data): string {
    match d
    case Text(s) => s
    case Integer(n) => Decimal.FromInt(n)
  }

  /** What a call raises. */
  datatype Error =
    | Response(cause: ResponseError)  // an error reply from the server
    | ConnectionLost                  // a command did not reach the server
    | AttributeError                  // None.decode(...) in get_str on a missing key
    | TypeError                       // int(None) in get_int on a missing key
    | ValueError                      // int(...) of text that is not a decimal literal

  /** __qualname__ of the decorated method, shared by both wrappers through functools.wraps. */
  const STORE_NAME: string := "Cache.store"

  function InputsKey(name: string): string {
    name + ":inputs"
  }

  function OutputsKey(name: string): string {
    name + ":outputs"
  }

  predicate IsInstrumentation(key: string) {
    key == STORE_NAME || key == InputsKey(STORE_NAME) || key == OutputsKey(STORE_NAME)
  }

  /** What is assumed of a uuid4() key: nothing is stored under it and it is no instrumentation key. */
  predicate FreshKey(db: Keyspace, key: string) {
    key !in db && !IsInstrumentation(key)
  }

  lemma InstrumentationKeysDistinct()
    ensures STORE_NAME != InputsKey(STORE_NAME)
    ensures STORE_NAME != OutputsKey(STORE_NAME)
    ensures InputsKey(STORE_NAME) != OutputsKey(STORE_NAME)
  {
    assert |STORE_NAME| == 11;
    assert |InputsKey(STORE_NAME)| == 18;
    assert |OutputsKey(STORE_NAME)| == 19;
  }

  // ---------------------------------------------------------------------
  // The instrumentation as it sits in the keyspace

  /** Every key holds a value of the kind the cache reads from it. */
  predicate Typed(db: Keyspace) {
    && (STORE_NAME in db ==> db[STORE_NAME].Str? && Decimal.RedisToInt(db[STORE_NAME].s).Some?)
    && (InputsKey(STORE_NAME) in db ==> db[InputsKey(STORE_NAME)].List?)
    && (OutputsKey(STORE_NAME) in db ==> db[OutputsKey(STORE_NAME)].List?)
    && (forall k :: k in db && !IsInstrumentation(k) ==> db[k].Str?)
  }

  /** The "Cache.store" counter; an absent key reads as 0. */
  function Count(db: Keyspace): int
    requires Typed(db)
  {
    if STORE_NAME in db then Decimal.RedisToInt(db[STORE_NAME].s).value else 0
  }

  function Inputs(db: Keyspace): seq<string>
    requires Typed(db)
  {
    if InputsKey(STORE_NAME) in db then db[InputsKey(STORE_NAME)].items else []
  }

  function Outputs(db: Keyspace): seq<string>
    requires Typed(db)
  {
    if OutputsKey(STORE_NAME) in db then db[OutputsKey(STORE_NAME)].items else []
  }

  /**
   * The invariant every call keeps, failed calls included: an input is
   * recorded before the counter moves, and the counter moves before an
   * output can be recorded.
   */
  predicate WellFormed(db: Keyspace) {
    Typed(db) && |Outputs(db)| <= Count(db) <= |Inputs(db)|
  }

  /**
   * The invariant of a history in which no call failed: counter and both
   * lists agree, and the i-th output is a key holding the i-th input.
   */
  predicate Aligned(db: Keyspace) {
    && WellFormed(db)
    && Count(db) == |Inputs(db)| == |Outputs(db)|
    && forall i :: 0 <= i < |Outputs(db)| ==>
         !IsInstrumentation(Outputs(db)[i]) && Outputs(db)[i] in db && db[Outputs(db)[i]] == Str(Inputs(db)[i])
  }

  // ---------------------------------------------------------------------
  // store, layer by layer, as functions of the keyspace

  /** The backend command of a store call that is lost, in the order they are sent. */
  datatype Step = PushInput | Increment | Write | PushOutput

  /** The keyspace after a call and what the call returned or raised. */
  datatype Effect = Effect(db: Keyspace, result: Result<string, Error>)

  /** The undecorated store: SET key str(data), return key. */
  function StoreEffect(db: Keyspace, data: Data, key: string, lost: Option<Step>): Effect {
    if lost == Some(Write) then Effect(db, Failure(ConnectionLost))
    else Effect(db[key := Str(Show(data))], Success(key))
  }

  /** count_calls around store: INCRBY "Cache.store" 1, then the wrapped call. */
  function CountCallsEffect(db: Keyspace, data: Data, key: string, lost: Option<Step>): Effect {
    if lost == Some(Increment) then Effect(db, Failure(ConnectionLost))
    else match IncrByCmd(db, STORE_NAME, 1)
      case Failure(e) => Effect(db, Failure(Response(e)))
      case Success((db', _)) => StoreEffect(db', data, key, lost)
  }

  /** call_history around count_calls: RPUSH the input, the wrapped call, RPUSH its output. */
  function CallHistoryEffect(db: Keyspace, data: Data, key: string, lost: Option<Step>): Effect {
    if lost == Some(PushInput) then Effect(db, Failure(ConnectionLost))
    else match RPushCmd(db, InputsKey(STORE_NAME), Show(data))
      case Failure(e) => Effect(db, Failure(Response(e)))
      case Success((db1, _)) =>
        var inner := CountCallsEffect(db1, data, key, lost);
        if inner.result.Failure? then inner
        else if lost == Some(PushOutput) then Effect(inner.db, Failure(ConnectionLost))
        else match RPushCmd(inner.db, OutputsKey(STORE_NAME), inner.result.value)
          case Failure(e) => Effect(inner.db, Failure(Response(e)))
          case Success((db2, _)) => Effect(db2, inner.result)
  }

  // The states a store call passes through on a typed keyspace.

  function AfterPushInput(db: Keyspace, data: Data): Keyspace
    requires Typed(db)
  {
    db[InputsKey(STORE_NAME) := List(Inputs(db) + [Show(data)])]
  }

  function AfterIncrement(db: Keyspace, data: Data): Keyspace
    requires Typed(db)
  {
    AfterPushInput(db, data)[STORE_NAME := Str(Decimal.FromInt(Count(db) + 1))]
  }

  function AfterWrite(db: Keyspace, data: Data, key: string): Keyspace
    requires Typed(db)
  {
    AfterIncrement(db, data)[key := Str(Show(data))]
  }

  function AfterPushOutput(db: Keyspace, data: Data, key: string): Keyspace
    requires Typed(db)
  {
    AfterWrite(db, data, key)[OutputsKey(STORE_NAME) := List(Outputs(db) + [key])]
  }

  /**
   * On a well-formed keyspace with a fresh key, a store call goes through
   * those states in order, and stops at the first lost command or at a
   * counter already at the 64-bit maximum.
   */
  lemma StoreSteps(db: Keyspace, data: Data, key: string, lost: Option<Step>)
    requires WellFormed(db) && !IsInstrumentation(key)
    ensures CallHistoryEffect(db, data, key, lost) ==
      if lost == Some(PushInput) then Effect(db, Failure(ConnectionLost))
      else if lost == Some(Increment) then Effect(AfterPushInput(db, data), Failure(ConnectionLost))
      else if Count(db) == Decimal.MAX_INT64 then Effect(AfterPushInput(db, data), Failure(Response(Overflow)))
      else if lost == Some(Write) then Effect(AfterIncrement(db, data), Failure(ConnectionLost))
      else if lost == Some(PushOutput) then Effect(AfterWrite(db, data, key), Failure(ConnectionLost))
      else Effect(AfterPushOutput(db, data, key), Success(key))
  {
    PushInputSucceeds(db, data);
    if Count(db) == Decimal.MAX_INT64 {
      IncrementOverflows(db, data);
    } else {
      IncrementSucceeds(db, data);
      PushOutputSucceeds(db, data, key);
    }
  }

  lemma PushInputSucceeds(db: Keyspace, data: Data)
    requires Typed(db)
    ensures RPushCmd(db, InputsKey(STORE_NAME), Show(data)).Success?
    ensures RPushCmd(db, InputsKey(STORE_NAME), Show(data)).value.0 == AfterPushInput(db, data)
  {
    if InputsKey(STORE_NAME) !in db {
      assert Inputs(db) + [Show(data)] == [Show(data)];
    }
  }

  lemma IncrementOverflows(db: Keyspace, data: Data)
    requires Typed(db) && Count(db) == Decimal.MAX_INT64
    ensures IncrByCmd(AfterPushInput(db, data), STORE_NAME, 1) == Failure(Overflow)
  {
    InstrumentationKeysDistinct();
    Decimal.RedisToIntCanonical(db[STORE_NAME].s, Count(db));
    IncrByAtMaximum(AfterPushInput(db, data), STORE_NAME);
  }

  lemma IncrementSucceeds(db: Keyspace, data: Data)
    requires WellFormed(db) && Count(db) < Decimal.MAX_INT64
    ensures IncrByCmd(AfterPushInput(db, data), STORE_NAME, 1).Success?
    ensures IncrByCmd(AfterPushInput(db, data), STORE_NAME, 1).value.0 == AfterIncrement(db, data)
  {
    InstrumentationKeysDistinct();
    if STORE_NAME in db {
      Decimal.RedisToIntCanonical(db[STORE_NAME].s, Count(db));
    }
    IncrByAdds(AfterPushInput(db, data), STORE_NAME, Count(db), 1);
  }

  lemma PushOutputSucceeds(db: Keyspace, data: Data, key: string)
    requires Typed(db) && !IsInstrumentation(key)
    ensures RPushCmd(AfterWrite(db, data, key), OutputsKey(STORE_NAME), key).Success?
    ensures RPushCmd(AfterWrite(db, data, key), OutputsKey(STORE_NAME), key).value.0 == AfterPushOutput(db, data, key)
  {
    InstrumentationKeysDistinct();
    if OutputsKey(STORE_NAME) !in db {
      assert Outputs(db) + [key] == [key];
    }
  }

  /** What each of those states holds in the instrumentation keys. */
  lemma StepStates(db: Keyspace, data: Data, key: string)
    requires WellFormed(db) && !IsInstrumentation(key)
    ensures Typed(AfterPushInput(db, data))
    ensures Count(AfterPushInput(db, data)) == Count(db)
    ensures Inputs(AfterPushInput(db, data)) == Inputs(db) + [Show(data)]
    ensures Outputs(AfterPushInput(db, data)) == Outputs(db)
    ensures Count(db) < Decimal.MAX_INT64 ==>
      && Typed(AfterIncrement(db, data))
      && Count(AfterIncrement(db, data)) == Count(db) + 1
      && Inputs(AfterIncrement(db, data)) == Inputs(db) + [Show(data)]
      && Outputs(AfterIncrement(db, data)) == Outputs(db)
      && Typed(AfterWrite(db, data, key))
      && Count(AfterWrite(db, data, key)) == Count(db) + 1
      && Inputs(AfterWrite(db, data, key)) == Inputs(db) + [Show(data)]
      && Outputs(AfterWrite(db, data, key)) == Outputs(db)
      && Typed(AfterPushOutput(db, data, key))
      && Count(AfterPushOutput(db, data, key)) == Count(db) + 1
      && Inputs(AfterPushOutput(db, data, key)) == Inputs(db) + [Show(data)]
      && Outputs(AfterPushOutput(db, data, key)) == Outputs(db) + [key]
  {
    InstrumentationKeysDistinct();
    if Count(db) < Decimal.MAX_INT64 {
      Decimal.RedisToIntCanonical(Decimal.FromInt(Count(db) + 1), Count(db) + 1);
    }
  }

  // ---------------------------------------------------------------------
  // What one store call does

  /**
   * A call that no failure interrupts returns its key, raises the counter
   * by one, appends str(data) to the inputs and the key to the outputs,
   * and leaves str(data) stored under the key.
   */
  lemma StoreRecordsCall(db: Keyspace, data: Data, key: string)
    requires WellFormed(db) && !IsInstrumentation(key) && Count(db) < Decimal.MAX_INT64
    ensures var e := CallHistoryEffect(db, data, key, None);
      && e.result == Success(key)
      && WellFormed(e.db)
      && Count(e.db) == Count(db) + 1
      && Inputs(e.db) == Inputs(db) + [Show(data)]
      && Outputs(e.db) == Outputs(db) + [key]
      && key in e.db && e.db[key] == Str(Show(data))
  {
    StoreSteps(db, data, key, None);
    StepStates(db, data, key);
    InstrumentationKeysDistinct();
  }

  /**
   * A call fails exactly when a command is lost or the counter is already
   * at its maximum. The input is pushed first, so once that push went
   * through a failed call leaves one more input than outputs; the output
   * is pushed last, so a failed call never records one; the counter moves
   * only if the increment went through.
   */
  lemma StoreFailureOrdering(db: Keyspace, data: Data, key: string, lost: Option<Step>)
    requires WellFormed(db) && !IsInstrumentation(key)
    ensures var e := CallHistoryEffect(db, data, key, lost);
      && (e.result.Failure? <==> lost.Some? || Count(db) == Decimal.MAX_INT64)
      && (e.result.Failure? ==>
           && Typed(e.db)
           && Outputs(e.db) == Outputs(db)
           && Inputs(e.db) == (if lost == Some(PushInput) then Inputs(db) else Inputs(db) + [Show(data)])
           && Count(e.db) == (if lost in {Some(Write), Some(PushOutput)} && Count(db) < Decimal.MAX_INT64
                              then Count(db) + 1 else Count(db)))
  {
    StoreSteps(db, data, key, lost);
    StepStates(db, data, key);
    match lost
    case None =>
    case Some(PushInput) =>
    case Some(Increment) =>
    case Some(Write) =>
    case Some(PushOutput) =>
  }

  /** Every call, failed or not, keeps the keyspace well formed. */
  lemma StorePreservesWellFormed(db: Keyspace, data: Data, key: string, lost: Option<Step>)
    requires WellFormed(db) && !IsInstrumentation(key)
    ensures WellFormed(CallHistoryEffect(db, data, key, lost).db)
  {
    StoreSteps(db, data, key, lost);
    StepStates(db, data, key);
  }

  /**
   * A call changes only its own key and the three instrumentation keys:
   * every other stored key keeps its value, and no other key appears.
   */
  lemma StoreTouchesOnlyItsKeys(db: Keyspace, data: Data, key: string, lost: Option<Step>)
    requires WellFormed(db) && !IsInstrumentation(key)
    ensures var e := CallHistoryEffect(db, data, key, lost);
      && (forall k :: k in db && k != key && !IsInstrumentation(k) ==> k in e.db && e.db[k] == db[k])
      && (forall k :: k in e.db ==> k in db || k == key || IsInstrumentation(k))
  {
    StoreSteps(db, data, key, lost);
    InstrumentationKeysDistinct();
  }

  /**
   * The key is written exactly when the SET was reached, that is when
   * neither an earlier command was lost nor the counter overflowed, and
   * then it holds str(data).
   */
  lemma StoreWritesKey(db: Keyspace, data: Data, key: string, lost: Option<Step>)
    requires WellFormed(db) && FreshKey(db, key)
    ensures var e := CallHistoryEffect(db, data, key, lost);
      && (key in e.db <==> (lost == None || lost == Some(PushOutput)) && Count(db) < Decimal.MAX_INT64)
      && (key in e.db ==> e.db[key] == Str(Show(data)))
  {
    StoreSteps(db, data, key, lost);
    InstrumentationKeysDistinct();
    match lost
    case None =>
    case Some(PushInput) =>
    case Some(Increment) =>
    case Some(Write) =>
    case Some(PushOutput) =>
  }

  /** A call that no failure interrupts keeps counter, inputs and outputs aligned. */
  lemma StorePreservesAligned(db: Keyspace, data: Data, key: string)
    requires Aligned(db) && FreshKey(db, key) && Count(db) < Decimal.MAX_INT64
    ensures var db' := CallHistoryEffect(db, data, key, None).db;
      && Aligned(db')
      && Count(db') == Count(db) + 1
      && Inputs(db') == Inputs(db) + [Show(data)]
      && Outputs(db') == Outputs(db) + [key]
  {
    var e := CallHistoryEffect(db, data, key, None);
    StoreRecordsCall(db, data, key);
    StoreTouchesOnlyItsKeys(db, data, key, None);
    forall i | 0 <= i < |Outputs(e.db)|
      ensures !IsInstrumentation(Outputs(e.db)[i]) && Outputs(e.db)[i] in e.db
      ensures e.db[Outputs(e.db)[i]] == Str(Inputs(e.db)[i])
    {
      if i < |Outputs(db)| {
        assert Outputs(e.db)[i] == Outputs(db)[i];
        assert Inputs(e.db)[i] == Inputs(db)[i];
      }
    }
  }

  // ---------------------------------------------------------------------
  // get, get_str and get_int read and change nothing, so each is a function of the keyspace

  /** get(key) without fn: the stored text or the missing sentinel. */
  function Get(db: Keyspace, key: string): Result<Option<string>, Error> {
    match GetCmd(db, key)
    case Failure(e) => Failure(Response(e))
    case Success(value) => Success(value)
  }

  /** get(key, fn): fn is applied to whatever GET returned, the missing sentinel included. */
  function GetWith<T>(db: Keyspace, key: string, fn: Option<string> -> Result<T, Error>): Result<T, Error> {
    match Get(db, key)
    case Failure(e) => Failure(e)
    case Success(value) => fn(value)
  }

  /** The conversion get_str passes: v.decode('utf-8'), which fails on None. */
  function Decode(value: Option<string>): Result<string, Error> {
    match value
    case None => Failure(AttributeError)
    case Some(s) => Success(s)
  }

  /** The conversion get_int passes: int(v), which fails on None and on non-decimal text. */
  function ParseInt(value: Option<string>): Result<int, Error> {
    match value
    case None => Failure(TypeError)
    case Some(s) =>
      match Decimal.ToInt(s)
      case None => Failure(ValueError)
      case Some(n) => Success(n)
  }

  function GetStr(db: Keyspace, key: string): Result<string, Error> {
    GetWith(db, key, Decode)
  }

  function GetInt(db: Keyspace, key: string): Result<int, Error> {
    GetWith(db, key, ParseInt)
  }

  /**
   * Reading back what store wrote: get returns str(data), get_str returns
   * the stored text, and get_int returns the stored int.
   */
  lemma StoreThenGet(db: Keyspace, data: Data, key: string)
    requires WellFormed(db) && !IsInstrumentation(key) && Count(db) < Decimal.MAX_INT64
    ensures var e := CallHistoryEffect(db, data, key, None);
      && e.result == Success(key)
      && Get(e.db, key) == Success(Some(Show(data)))
      && GetStr(e.db, key) == Success(Show(data))
      && (data.Text? ==> GetStr(e.db, key) == Success(data.s))
      && (data.Integer? ==> GetInt(e.db, key) == Success(data.n))
  {
    StoreRecordsCall(db, data, key);
    if data.Integer? {
      Decimal.ToIntFromInt(data.n);
    }
  }

  /**
   * A missing key is not an error for get, which returns the sentinel; but
   * get_str and get_int apply their conversion to it, and that raises.
   */
  lemma GetMissing(db: Keyspace, key: string)
    requires key !in db
    ensures Get(db, key) == Success(None)
    ensures GetStr(db, key) == Failure(AttributeError)
    ensures GetInt(db, key) == Failure(TypeError)
  {
  }

  // ---------------------------------------------------------------------
  // replay

  /** What replay reports: the raw GET of the counter and the (input, output) pairs. */
  datatype Report = Report(count: Option<string>, calls: seq<(string, string)>)

  /** Python's zip: pairs by position, stopping at the shorter sequence. */
  function Zip<A, B>(a: seq<A>, b: seq<B>): (r: seq<(A, B)>)
    ensures |r| == if |a| < |b| then |a| else |b|
    ensures forall i :: 0 <= i < |r| ==> r[i] == (a[i], b[i])
  {
    if a == [] || b == [] then [] else [(a[0], b[0])] + Zip(a[1..], b[1..])
  }

  /** replay(f) for the method whose __qualname__ is name. */
  function ReplayOf(db: Keyspace, name: string): Result<Report, Error> {
    match GetCmd(db, name)
    case Failure(e) => Failure(Response(e))
    case Success(count) =>
      match LRangeCmd(db, InputsKey(name))
      case Failure(e) => Failure(Response(e))
      case Success(inputs) =>
        match LRangeCmd(db, OutputsKey(name))
        case Failure(e) => Failure(Response(e))
        case Success(outputs) => Success(Report(count, Zip(inputs, outputs)))
  }

  /**
   * On an aligned keyspace replay of "Cache.store" succeeds, reports the
   * counter (or the missing sentinel before the first call) and one pair
   * per call, each pairing a returned key with the value stored under it.
   */
  lemma ReplayAligned(db: Keyspace)
    requires Aligned(db)
    ensures ReplayOf(db, STORE_NAME).Success?
    ensures var report := ReplayOf(db, STORE_NAME).value;
      && (report.count == None ==> Count(db) == 0)
      && (report.count != None ==> report.count == Some(Decimal.FromInt(Count(db))))
      && report.calls == Zip(Inputs(db), Outputs(db))
      && |report.calls| == Count(db)
      && forall i :: 0 <= i < |report.calls| ==> Get(db, report.calls[i].1) == Success(Some(report.calls[i].0))
  {
    if STORE_NAME in db {
      Decimal.RedisToIntCanonical(db[STORE_NAME].s, Count(db));
    }
  }

  /** Right after the flush: the counter reads 0, both lists are empty, and replay reports the missing sentinel and no calls. */
  lemma FlushedIsEmpty()
    ensures Aligned(map[]) && Count(map[]) == 0 && Inputs(map[]) == [] && Outputs(map[]) == []
    ensures ReplayOf(map[], STORE_NAME) == Success(Report(None, []))
  {
  }

  // ---------------------------------------------------------------------
  // Several calls

  /** str of each value, in order. */
  function Shows(datas: seq<Data>): (r: seq<string>)
    ensures |r| == |datas|
    decreases |datas|
  {
    if datas == [] then [] else Shows(datas[..|datas| - 1]) + [Show(datas[|datas| - 1])]
  }

  /** The i-th recorded input is str of the i-th value. */
  lemma {:induction false} ShowsAt(datas: seq<Data>, i: int)
    requires 0 <= i < |datas|
    ensures Shows(datas)[i] == Show(datas[i])
    decreases |datas|
  {
    var n := |datas| - 1;
    if i < n {
      ShowsAt(datas[..n], i);
    }
  }

  /** Keys from successive uuid4() calls: distinct, and each one fresh. */
  predicate FreshKeys(db: Keyspace, keys: seq<string>) {
    && (forall i :: 0 <= i < |keys| ==> FreshKey(db, keys[i]))
    && (forall i, j :: 0 <= i < j < |keys| ==> keys[i] != keys[j])
  }

  /** store(datas[0]), store(datas[1]), ... with uuid4() returning keys[0], keys[1], ... */
  function StoreAll(db: Keyspace, datas: seq<Data>, keys: seq<string>): Keyspace
    requires |datas| == |keys|
    decreases |datas|
  {
    if datas == [] then db
    else
      var n := |datas| - 1;
      CallHistoryEffect(StoreAll(db, datas[..n], keys[..n]), datas[n], keys[n], None).db
  }

  /** The history after the calls so far: aligned, and extended by exactly those calls. */
  predicate Extends(db: Keyspace, datas: seq<Data>, keys: seq<string>, db': Keyspace)
    requires Typed(db)
  {
    && Aligned(db')
    && Inputs(db') == Inputs(db) + Shows(datas)
    && Outputs(db') == Outputs(db) + keys
    && forall k :: k in db' ==> k in db || k in keys || IsInstrumentation(k)
  }

  /** The next key is still fresh after the calls that used the keys before it. */
  lemma NextKeyFresh(db: Keyspace, keys: seq<string>, before: Keyspace)
    requires |keys| > 0 && FreshKeys(db, keys)
    requires forall k :: k in before ==> k in db || k in keys[..|keys| - 1] || IsInstrumentation(k)
    ensures FreshKey(before, keys[|keys| - 1])
  {
    assert keys[|keys| - 1] !in keys[..|keys| - 1];
  }

  /** Appending the last element of s to a history that extends base by the rest of s. */
  lemma AppendLast<T>(base: seq<T>, s: seq<T>, before: seq<T>, after: seq<T>)
    requires |s| > 0 && before == base + s[..|s| - 1] && after == before + [s[|s| - 1]]
    ensures after == base + s
  {
    assert s == s[..|s| - 1] + [s[|s| - 1]];
  }

  lemma ShowsLast(datas: seq<Data>)
    requires |datas| > 0
    ensures Shows(datas) == Shows(datas[..|datas| - 1]) + [Show(datas[|datas| - 1])]
  {
  }

  /** Appending one more element to a history that extends base by init. */
  lemma AppendStep<T>(base: seq<T>, init: seq<T>, last: T, before: seq<T>, after: seq<T>)
    requires before == base + init && after == before + [last]
    ensures after == base + (init + [last])
  {
  }

  /** Before one more call, the history so far leaves room for it and its key is fresh. */
  lemma NextCallReady(db: Keyspace, datas: seq<Data>, keys: seq<string>, before: Keyspace)
    requires Aligned(db) && |datas| == |keys| > 0 && FreshKeys(db, keys)
    requires Count(db) + |keys| <= Decimal.MAX_INT64
    requires Extends(db, datas[..|datas| - 1], keys[..|keys| - 1], before)
    ensures Aligned(before) && Count(before) < Decimal.MAX_INT64 && FreshKey(before, keys[|keys| - 1])
  {
    var n := |keys| - 1;
    assert Count(before) == |Outputs(before)| == Count(db) + n;
    NextKeyFresh(db, keys, before);
  }

  /** One more uninterrupted call extends the history by that call. */
  lemma ExtendsByOne(db: Keyspace, datas: seq<Data>, keys: seq<string>, before: Keyspace)
    requires Aligned(db) && |datas| == |keys| > 0 && FreshKeys(db, keys)
    requires Count(db) + |keys| <= Decimal.MAX_INT64
    requires Extends(db, datas[..|datas| - 1], keys[..|keys| - 1], before)
    ensures Extends(db, datas, keys, CallHistoryEffect(before, datas[|datas| - 1], keys[|keys| - 1], None).db)
  {
    var n := |datas| - 1;
    NextCallReady(db, datas, keys, before);
    StorePreservesAligned(before, datas[n], keys[n]);
    ExtendsFrame(db, keys, before, datas[n]);
    var after := CallHistoryEffect(before, datas[n], keys[n], None).db;
    ShowsLast(datas);
    AppendLast(Outputs(db), keys, Outputs(before), Outputs(after));
    AppendStep(Inputs(db), Shows(datas[..n]), Show(datas[n]), Inputs(before), Inputs(after));
  }

  lemma ExtendsFrame(db: Keyspace, keys: seq<string>, before: Keyspace, data: Data)
    requires |keys| > 0 && WellFormed(before) && !IsInstrumentation(keys[|keys| - 1])
    requires forall k :: k in before ==> k in db || k in keys[..|keys| - 1] || IsInstrumentation(k)
    ensures forall k :: k in CallHistoryEffect(before, data, keys[|keys| - 1], None).db ==>
      k in db || k in keys || IsInstrumentation(k)
  {
    StoreTouchesOnlyItsKeys(before, data, keys[|keys| - 1], None);
    assert keys == keys[..|keys| - 1] + [keys[|keys| - 1]];
  }

  /**
   * N uninterrupted calls from an aligned keyspace raise the counter by N,
   * append the N inputs and the N returned keys in call order, keep the
   * keyspace aligned, and add no key but the returned ones.
   */
  lemma {:induction false} StoreAllAligned(db: Keyspace, datas: seq<Data>, keys: seq<string>)
    requires Aligned(db) && |datas| == |keys| && FreshKeys(db, keys)
    requires Count(db) + |keys| <= Decimal.MAX_INT64
    ensures Extends(db, datas, keys, StoreAll(db, datas, keys))
    decreases |datas|
  {
    if datas == [] {
      assert Shows(datas) == [];
    } else {
      var n := |datas| - 1;
      assert FreshKeys(db, keys[..n]);
      StoreAllAligned(db, datas[..n], keys[..n]);
      ExtendsByOne(db, datas, keys, StoreAll(db, datas[..n], keys[..n]));
    }
  }

  /** The run of the first n + 1 calls is the run of the first n followed by one more call. */
  lemma StoreAllNext(db: Keyspace, datas: seq<Data>, keys: seq<string>, n: nat)
    requires |datas| == |keys| && n < |keys|
    ensures StoreAll(db, datas[..n + 1], keys[..n + 1])
         == CallHistoryEffect(StoreAll(db, datas[..n], keys[..n]), datas[n], keys[n], None).db
  {
    assert keys[..n + 1][..n] == keys[..n] && datas[..n + 1][..n] == datas[..n];
  }

  /**
   * After N calls on a freshly flushed keyspace the counter is N, the
   * i-th input is str of the i-th value, the i-th output is the i-th
   * returned key, and get on that key returns the i-th value's text.
   */
  lemma RepeatedStores(datas: seq<Data>, keys: seq<string>)
    requires |datas| == |keys| && FreshKeys(map[], keys) && |keys| <= Decimal.MAX_INT64
    ensures var db := StoreAll(map[], datas, keys);
      && Aligned(db)
      && Count(db) == |keys|
      && Inputs(db) == Shows(datas)
      && Outputs(db) == keys
      && forall i :: 0 <= i < |keys| ==> Get(db, keys[i]) == Success(Some(Show(datas[i])))
  {
    var db := StoreAll(map[], datas, keys);
    StoreAllAligned(map[], datas, keys);
    assert Aligned(db) && Outputs(db) == keys && Inputs(db) == Shows(datas);
    forall i | 0 <= i < |keys|
      ensures Get(db, keys[i]) == Success(Some(Show(datas[i])))
    {
      ShowsAt(datas, i);
      assert Outputs(db)[i] == keys[i];
    }
  }

  /**
   * The module-level script: after store('foo'), store('bar'), store(42)
   * on a fresh Cache, replay reports a count of 3 and the three inputs
   * paired with the three returned keys in call order.
   */
  lemma ScriptReplay(k1: string, k2: string, k3: string)
    requires FreshKeys(map[], [k1, k2, k3])
    ensures ReplayOf(StoreAll(map[], [Text("foo"), Text("bar"), Integer(42)], [k1, k2, k3]), STORE_NAME)
         == Success(Report(Some("3"), [("foo", k1), ("bar", k2), ("42", k3)]))
  {
    var datas := [Text("foo"), Text("bar"), Integer(42)];
    var keys := [k1, k2, k3];
    var db := StoreAll(map[], datas, keys);
    RepeatedStores(datas, keys);
    ReplayAligned(db);
    ScriptInputs();
    var report := ReplayOf(db, STORE_NAME).value;
    assert report.count == Some("3") by {
      assert Decimal.FromInt(3) == "3";
    }
    assert report.calls == [("foo", k1), ("bar", k2), ("42", k3)] by {
      assert |report.calls| == 3;
    }
  }

  /** The keyspace the script's three calls leave is the one the run of them describes. */
  lemma ScriptStates(k1: string, k2: string, k3: string, db1: Keyspace, db2: Keyspace, db3: Keyspace)
    requires FreshKeys(map[], [k1, k2, k3])
    requires db1 == CallHistoryEffect(map[], Text("foo"), k1, None).db
    requires db2 == CallHistoryEffect(db1, Text("bar"), k2, None).db
    requires db3 == CallHistoryEffect(db2, Integer(42), k3, None).db
    ensures ReplayOf(db3, STORE_NAME) == Success(Report(Some("3"), [("foo", k1), ("bar", k2), ("42", k3)]))
  {
    var datas := [Text("foo"), Text("bar"), Integer(42)];
    var keys := [k1, k2, k3];
    assert datas[..0] == [] && keys[..0] == [];
    StoreAllNext(map[], datas, keys, 0);
    StoreAllNext(map[], datas, keys, 1);
    StoreAllNext(map[], datas, keys, 2);
    assert datas[..3] == datas && keys[..3] == keys;
    ScriptReplay(k1, k2, k3);
  }

  /** str of the script's three values. */
  lemma ScriptInputs()
    ensures Shows([Text("foo"), Text("bar"), Integer(42)]) == ["foo", "bar", "42"]
  {
    var datas := [Text("foo"), Text("bar"), Integer(42)];
    assert Decimal.FromInt(42) == "42";
    ShowsAt(datas, 0);
    ShowsAt(datas, 1);
    ShowsAt(datas, 2);
  }

  // ---------------------------------------------------------------------
  // The class

  class Cache {
    /** self._redis: a client of a server that other clients may share. */
    const redis: Redis

    ghost predicate Valid()
      reads redis
    {
      WellFormed(redis.db)
    }

    /** __init__: connects and flushes the whole database. */
    constructor (server: Redis)
      modifies server
      ensures redis == server && redis.db == map[]
      ensures Valid() && Aligned(redis.db)
    {
      redis := server;
      new;
      redis.FlushDb();
    }

    /** The undecorated store. */
    method StoreUndecorated(data: Data, key: string, lost: Option<Step>) returns (r: Result<string, Error>)
      modifies redis
      ensures Effect(redis.db, r) == StoreEffect(old(redis.db), data, key, lost)
    {
      if lost == Some(Write) {
        return Failure(ConnectionLost);
      }
      redis.Set(key, Show(data));
      r := Success(key);
    }

    /** count_calls(store). */
    method CountCalls(data: Data, key: string, lost: Option<Step>) returns (r: Result<string, Error>)
      modifies redis
      ensures Effect(redis.db, r) == CountCallsEffect(old(redis.db), data, key, lost)
    {
      if lost == Some(Increment) {
        return Failure(ConnectionLost);
      }
      var count := redis.IncrBy(STORE_NAME, 1);
      if count.Failure? {
        return Failure(Response(count.error));
      }
      r := StoreUndecorated(data, key, lost);
    }

    /** call_history(count_calls(store)): the store that callers see. */
    method Store(data: Data, key: string, lost: Option<Step>) returns (r: Result<string, Error>)
      requires Valid() && !IsInstrumentation(key)
      modifies redis
      ensures Valid()
      ensures Effect(redis.db, r) == CallHistoryEffect(old(redis.db), data, key, lost)
      ensures old(Aligned(redis.db) && FreshKey(redis.db, key)) && lost == None && old(Count(redis.db)) < Decimal.MAX_INT64 ==>
        Aligned(redis.db) && r == Success(key)
    {
      StorePreservesWellFormed(redis.db, data, key, lost);
      if Aligned(redis.db) && FreshKey(redis.db, key) && lost == None && Count(redis.db) < Decimal.MAX_INT64 {
        StoreRecordsCall(redis.db, data, key);
        StorePreservesAligned(redis.db, data, key);
      }
      if lost == Some(PushInput) {
        return Failure(ConnectionLost);
      }
      var pushed := redis.RPush(InputsKey(STORE_NAME), Show(data));
      if pushed.Failure? {
        return Failure(Response(pushed.error));
      }
      var output := CountCalls(data, key, lost);
      if output.Failure? {
        return output;
      }
      if lost == Some(PushOutput) {
        return Failure(ConnectionLost);
      }
      pushed := redis.RPush(OutputsKey(STORE_NAME), output.value);
      if pushed.Failure? {
        return Failure(Response(pushed.error));
      }
      r := output;
    }

  }

  /** replay(cache.store): reads the counter and both lists, then walks zip(inputs, outputs). */
  method Replay(cache: Cache, name: string) returns (r: Result<Report, Error>)
    ensures r == ReplayOf(cache.redis.db, name)
  {
    var count := GetCmd(cache.redis.db, name);
    if count.Failure? {
      return Failure(Response(count.error));
    }
    var inputs := LRangeCmd(cache.redis.db, InputsKey(name));
    if inputs.Failure? {
      return Failure(Response(inputs.error));
    }
    var outputs := LRangeCmd(cache.redis.db, OutputsKey(name));
    if outputs.Failure? {
      return Failure(Response(outputs.error));
    }
    var ins, outs := inputs.value, outputs.value;
    var calls: seq<(string, string)> := [];
    var i := 0;
    while i < |ins| && i < |outs|
      invariant 0 <= i <= |ins| && i <= |outs|
      invariant |calls| == i
      invariant forall j :: 0 <= j < i ==> calls[j] == (ins[j], outs[j])
    {
      calls := calls + [(ins[i], outs[i])];
      i := i + 1;
    }
    assert calls == Zip(ins, outs);
    r := Success(Report(count.value, calls));
  }

  /** The script at the end of the module, run against a server in any state. */
  method Script(server: Redis, k1: string, k2: string, k3: string) returns (report: Result<Report, Error>)
    requires FreshKeys(map[], [k1, k2, k3])
    modifies server
    ensures report == Success(Report(Some("3"), [("foo", k1), ("bar", k2), ("42", k3)]))
  {
    assert !IsInstrumentation(k1) && !IsInstrumentation(k2) && !IsInstrumentation(k3) by {
      assert [k1, k2, k3][0] == k1 && [k1, k2, k3][1] == k2 && [k1, k2, k3][2] == k3;
    }
    var cache := new Cache(server);
    var key1 := cache.Store(Text("foo"), k1, None);
    ghost var db1 := cache.redis.db;
    var key2 := cache.Store(Text("bar"), k2, None);
    ghost var db2 := cache.redis.db;
    var key3 := cache.Store(Integer(42), k3, None);
    ScriptStates(k1, k2, k3, db1, db2, cache.redis.db);
    report := Replay(cache, STORE_NAME);
  }
}
