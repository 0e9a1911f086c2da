/**
 * An in-memory stand-in for the Redis server the cache talks to: one
 * keyspace whose values are strings or lists, and the six commands the
 * cache sends (FLUSHDB, SET, GET, INCRBY, RPUSH, LRANGE key 0 -1).
 * Each command is a function of the keyspace; class Redis holds the
 * keyspace and performs the updating commands in place.
 */
module Backend {
  import opened Wrappers
  import Decimal

  datatype Value = Str(s: string) | List(items: seq<string>)

  /** The replies Redis sends as errors (redis-py raises them as ResponseError). */
  datatype ResponseError =
    | WrongType     // the key holds a value of the other kind
    | NotAnInteger  // INCRBY on a string that is not the text of an int64, or by more than 64 bits
    | Overflow      // INCRBY would leave the 64-bit range

  type Keyspace = map<string, Value>

  /** GET key: the string, the missing sentinel, or WRONGTYPE on a list. */
  function GetCmd(db: Keyspace, key: string): Result<Option<string>, ResponseError> {
    if key !in db then Success(None)
    else match db[key]
      case Str(s) => Success(Some(s))
      case List(_) => Failure(WrongType)
  }

  /**
   * INCRBY key increment: an increment outside 64 bits is refused before the
   * key is looked at; an absent key counts as 0; the reply is the new value.
   */
  function IncrByCmd(db: Keyspace, key: string, increment: int): Result<(Keyspace, int), ResponseError> {
    if !(Decimal.MIN_INT64 <= increment <= Decimal.MAX_INT64) then Failure(NotAnInteger)
    else if key in db && db[key].List? then Failure(WrongType)
    else
      var current := if key in db then Decimal.RedisToInt(db[key].s) else Some(0);
      if current.None? then Failure(NotAnInteger)
      else if !(Decimal.MIN_INT64 <= current.value + increment <= Decimal.MAX_INT64) then Failure(Overflow)
      else Success((db[key := Str(Decimal.FromInt(current.value + increment))], current.value + increment))
  }

  /** RPUSH key value: an absent key starts as the empty list; the reply is the new length. */
  function RPushCmd(db: Keyspace, key: string, value: string): Result<(Keyspace, nat), ResponseError> {
    if key !in db then Success((db[key := List([value])], 1))
    else match db[key]
      case Str(_) => Failure(WrongType)
      case List(items) => Success((db[key := List(items + [value])], |items| + 1))
  }

  /** LRANGE key 0 -1: the whole list, the empty list for an absent key. */
  function LRangeCmd(db: Keyspace, key: string): Result<seq<string>, ResponseError> {
    if key !in db then Success([])
    else match db[key]
      case Str(_) => Failure(WrongType)
      case List(items) => Success(items)
  }

  /** An absent key counts as 0, and INCRBY adds its argument to the stored integer. */
  lemma IncrByAdds(db: Keyspace, key: string, current: int, increment: int)
    requires (key !in db && current == 0) || (key in db && db[key] == Str(Decimal.FromInt(current)))
    requires Decimal.MIN_INT64 <= current <= Decimal.MAX_INT64
    requires Decimal.MIN_INT64 <= increment <= Decimal.MAX_INT64
    requires Decimal.MIN_INT64 <= current + increment <= Decimal.MAX_INT64
    ensures IncrByCmd(db, key, increment) == Success((db[key := Str(Decimal.FromInt(current + increment))], current + increment))
  {
    if key in db {
      Decimal.RedisToIntCanonical(db[key].s, current);
    }
  }

  /** INCRBY fails, and changes nothing, once the counter is at the 64-bit maximum. */
  lemma IncrByAtMaximum(db: Keyspace, key: string)
    requires key in db && db[key] == Str(Decimal.FromInt(Decimal.MAX_INT64))
    ensures IncrByCmd(db, key, 1) == Failure(Overflow)
  {
    Decimal.RedisToIntCanonical(db[key].s, Decimal.MAX_INT64);
  }

  /** RPUSH appends at the tail: LRANGE 0 -1 afterwards is the old list plus the value. */
  lemma RPushThenLRange(db: Keyspace, key: string, value: string)
    requires LRangeCmd(db, key).Success?
    ensures RPushCmd(db, key, value).Success?
    ensures var (db', n) := RPushCmd(db, key, value).value;
      LRangeCmd(db', key) == Success(LRangeCmd(db, key).value + [value]) &&
      n == |LRangeCmd(db', key).value| &&
      (forall k :: k in db && k != key ==> k in db' && db'[k] == db[k]) &&
      (forall k :: k in db' ==> k in db || k == key)
  {
    if key !in db {
      assert LRangeCmd(db, key).value + [value] == [value];
    }
  }

  /** The server's keyspace, which every client connected to it shares. */
  class Redis {
    var db: Keyspace

    /** A server that may already hold data from earlier clients. */
    constructor (contents: Keyspace)
      ensures db == contents
    {
      db := contents;
    }

    method FlushDb()
      modifies this
      ensures db == map[]
    {
      db := map[];
    }

    method Set(key: string, value: string)
      modifies this
      ensures db == old(db)[key := Str(value)]
    {
      db := db[key := Str(value)];
    }

    method IncrBy(key: string, increment: int) returns (r: Result<int, ResponseError>)
      modifies this
      ensures match IncrByCmd(old(db), key, increment)
        case Success((db', n)) => db == db' && r == Success(n)
        case Failure(e) => db == old(db) && r == Failure(e)
    {
      match IncrByCmd(db, key, increment)
      case Success((db', n)) =>
        db := db';
        r := Success(n);
      case Failure(e) =>
        r := Failure(e);
    }

    method RPush(key: string, value: string) returns (r: Result<nat, ResponseError>)
      modifies this
      ensures match RPushCmd(old(db), key, value)
        case Success((db', n)) => db == db' && r == Success(n)
        case Failure(e) => db == old(db) && r == Failure(e)
    {
      match RPushCmd(db, key, value)
      case Success((db', n)) =>
        db := db';
        r := Success(n);
      case Failure(e) =>
        r := Failure(e);
    }
  }
}
