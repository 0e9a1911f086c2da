# Instrumented Redis cache

A Dafny model of the `Cache` class in `0x02-redis_basic/exercise.py`, its two decorators, and the `replay` helper, with proofs of what they promise.

- **`Cache`**: the constructor flushes the server. `store` writes `str(data)` under a fresh key and returns the key. `get`, `get_str` and `get_int` read a value back, optionally through a conversion.
- **`count_calls`**: bumps the counter `"Cache.store"` with INCRBY.
- **`call_history`**: RPUSHes the call's input onto `"Cache.store:inputs"` and its output onto `"Cache.store:outputs"`.
- **Decorator order**: `call_history` is the outer decorator and `count_calls` the inner one. Both use the name `"Cache.store"`, which `functools.wraps` copies into `__qualname__`.
- **`replay`**: reads back the counter and the two lists and pairs them up with `zip`.

The model has four modules:

- **`Wrappers`**: `Option` and `Result`.
- **`Decimal`**:
  - Python's `str` of an int and `int` of decimal text.
  - Redis's strict string-to-int64 conversion, which INCRBY applies to the stored counter.
- **`Backend`**: an in-memory Redis.
  - One keyspace maps each key to a string or a list.
  - The commands the cache sends are pure functions of it: GET, INCRBY, RPUSH, and LRANGE key 0 -1.
  - `class Redis` holds the keyspace and performs SET, INCRBY, RPUSH and FLUSHDB in place.
  - `IncrBy` and `RPush` are proved against their command functions; `FlushDb` and `Set` state the new keyspace directly.
- **`Cache`**:
  - The effect of each decorator layer is a function of the keyspace: `StoreEffect`, `CountCallsEffect` and `CallHistoryEffect`.
  - `class Cache` holds the server its methods update. Its `Store`, `CountCalls` and `StoreUndecorated` methods follow the wrappers command by command, with the same early exits. They are proved equal to those functions.
  - `get`, `get_str` and `get_int` change nothing, so they are functions of the keyspace: `Get`, `GetWith`, `GetStr` and `GetInt`.
  - The invariants are two predicates over the keyspace: `WellFormed`, which every call keeps, and `Aligned`, which every uninterrupted call keeps.
  - Lemmas state what one call, N calls and the module's closing script do.

How the environment becomes inputs:

- **The `uuid4()` key** is a parameter of `store`.
- **Command failures** are a parameter too: `lost` names the one backend command of a call that does not reach the server, if any. redis-py then raises `ConnectionError`, and the error propagates through both wrappers.
- **Counter overflow**: INCRBY at the 64-bit maximum is a genuine error reply, and it is modelled as such.

Where the code and its usual description differ, the model follows the code:

- `get` with a conversion applies the conversion to the missing value too. So `get_str` and `get_int` on a missing key raise `AttributeError` and `TypeError`.
- `replay` reports the raw reply of GET on the counter. That reply is the missing sentinel before the first call, not 0.
- `count_calls` sends `INCRBY key 1`, not INCR.
- The server is one keyspace, not separate tables for strings, counters and lists. `replay` reads the counter with GET, so the counter must be the decimal string that INCRBY leaves in the shared keyspace.

## Model

| member | source | states |
|---|---|---|
| Backend.Redis.constructor | 0x02-redis_basic/exercise.py:31 | `redis.Redis()` connects to a server whose keyspace may already hold data from earlier clients |
| Backend.Redis.FlushDb | 0x02-redis_basic/exercise.py:32 | FLUSHDB leaves the keyspace empty |
| Backend.Redis.Set | 0x02-redis_basic/exercise.py:38 | SET stores the text under the key and changes no other key |
| Backend.Redis.IncrBy | 0x02-redis_basic/exercise.py:12 | INCRBY updates the keyspace and replies as the INCRBY command function says; on an error reply nothing changes |
| Backend.Redis.RPush | 0x02-redis_basic/exercise.py:22 | RPUSH updates the keyspace and replies as the RPUSH command function says; on an error reply nothing changes |
| Backend.IncrByAdds | 0x02-redis_basic/exercise.py:12 | an absent counter counts as 0; INCRBY stores and returns the old value plus the increment, as canonical decimal text, while the increment and the sum fit in 64 bits |
| Backend.IncrByAtMaximum | 0x02-redis_basic/exercise.py:12 | a counter already at the 64-bit maximum makes INCRBY 1 fail with an overflow error |
| Backend.RPushThenLRange | 0x02-redis_basic/exercise.py:22-24 | RPUSH appends at the tail: LRANGE 0 -1 then returns the old list plus the value; the reply is the new length; every other key keeps its value and no other key appears |
| Decimal.ToIntFromInt | 0x02-redis_basic/exercise.py:49 | `int(str(n)) == n` for every int, negatives included |
| Decimal.RedisToIntCanonical | 0x02-redis_basic/exercise.py:12 | Redis reads a stored string as an integer exactly when the string is the canonical decimal text of an int64 |
| Cache.InstrumentationKeysDistinct | 0x02-redis_basic/exercise.py:20-21 | the counter key and the two list keys are three different keys |
| Cache.Cache.constructor | 0x02-redis_basic/exercise.py:30-32 | the cache uses the given server, whose keyspace is then empty, so the invariants hold |
| Cache.FlushedIsEmpty | 0x02-redis_basic/exercise.py:30-32 | after the flush, the counter reads 0 and both lists are empty; replay reports the missing sentinel and no calls |
| Cache.Cache.StoreUndecorated | 0x02-redis_basic/exercise.py:36-39 | the undecorated store SETs `str(data)` under the key and returns the key, unless the SET is lost |
| Cache.Cache.CountCalls | 0x02-redis_basic/exercise.py:9-14 | the inner wrapper sends INCRBY 1 before calling the undecorated store; if the increment fails, the store is not called |
| Cache.Cache.Store | 0x02-redis_basic/exercise.py:17-26 | the outer wrapper pushes the input, calls the inner wrapper, then pushes its output; the call keeps `WellFormed`; an uninterrupted call with a fresh key keeps `Aligned` and returns the key |
| Cache.StoreSteps | 0x02-redis_basic/exercise.py:17-26 | the keyspace and result of a call, for each lost command and for counter overflow; the call stops at the first command that fails |
| Cache.StoreRecordsCall | 0x02-redis_basic/exercise.py:17-26 | an uninterrupted call returns its key, raises the counter by 1, appends `str(data)` to the inputs and the key to the outputs, and stores `str(data)` under the key |
| Cache.StoreFailureOrdering | 0x02-redis_basic/exercise.py:22-24 | a call fails exactly when a command is lost or the counter is at its maximum; once the input push went through, a failed call leaves one more input than outputs; the counter moves only if the increment went through |
| Cache.StorePreservesWellFormed | 0x02-redis_basic/exercise.py:9-26 | every call, failed or not, keeps the typing of the instrumentation keys and `outputs <= counter <= inputs` |
| Cache.StoreTouchesOnlyItsKeys | 0x02-redis_basic/exercise.py:17-39 | a call changes only its own key and the three instrumentation keys: every other key keeps its value, and no other key appears |
| Cache.StoreWritesKey | 0x02-redis_basic/exercise.py:36-39 | a fresh key is present afterwards exactly when the SET was reached, and then it holds `str(data)` |
| Cache.StorePreservesAligned | 0x02-redis_basic/exercise.py:17-26 | an uninterrupted call with a fresh key keeps counter, inputs and outputs of equal length, each output a key holding its input |
| Cache.StoreThenGet | 0x02-redis_basic/exercise.py:41-49 | after `store(data)` returns k, `get(k)` gives `str(data)`; `get_str(k)` gives the text stored; `get_int(k)` gives the int stored |
| Cache.GetMissing | 0x02-redis_basic/exercise.py:41-49 | on a missing key `get` returns the missing sentinel, `get_str` raises `AttributeError` and `get_int` raises `TypeError` |
| Cache.Zip | 0x02-redis_basic/exercise.py:60 | `zip` pairs the two lists by position and stops at the shorter one |
| Cache.Replay | 0x02-redis_basic/exercise.py:52-61 | replay reports the raw counter reply and the pairs its loop builds over both lists; any error reply propagates |
| Cache.ReplayAligned | 0x02-redis_basic/exercise.py:52-61 | on an aligned keyspace, replay succeeds and reports the counter's text, or the sentinel when no call was made; it pairs each input with its output, one pair per call, and each output key holds its input |
| Cache.ShowsAt | 0x02-redis_basic/exercise.py:22 | the i-th input recorded for a run of calls is `str` of the i-th value |
| Cache.StoreAllAligned | 0x02-redis_basic/exercise.py:9-26 | N uninterrupted calls with fresh, distinct keys keep the keyspace aligned; they append the N inputs and the N keys in call order and add no other key |
| Cache.RepeatedStores | 0x02-redis_basic/exercise.py:9-26 | after N calls on a flushed keyspace: counter N, inputs `str` of the values in order, outputs the keys in order, and `get` of the i-th key gives `str` of the i-th value |
| Cache.ScriptReplay | 0x02-redis_basic/exercise.py:82-86 | after `store('foo')`, `store('bar')` and `store(42)`, replay reports `"3"` and the pairs ('foo', k1), ('bar', k2), ('42', k3) |
| Cache.ScriptStates | 0x02-redis_basic/exercise.py:82-86 | the keyspace left by the script's three calls gives that replay report |
| Cache.Script | 0x02-redis_basic/exercise.py:82-86 | run against a server in any state, the module's script gets that report from replay |

## Left out

- Network and connection handling: only the loss of one command per call before it reaches the server is modelled, as `lost`. A `ConnectionError` raised after the server ran the command, when only the reply is lost, is not: the command's effect then stays although the call raises, a state `StoreSteps` and `StoreFailureOrdering` do not describe. Timeouts, retries and connection settings are not modelled either.
- `uuid4()`: the key is a parameter.
  - `Store` requires only that the key is not an instrumentation key, which a uuid4 text never is.
  - The alignment lemmas also assume the key is not yet stored. That is uuid4's uniqueness, which the model does not derive.
- Floats, bytes and bools passed to `store`: `Data` is a str or an int.
- Encodings: strings are sequences of characters. UTF-8 encoding on the way in and decoding on the way out are not modelled, so decoding never fails.
- `int()` on text with surrounding whitespace, underscores or non-ASCII digits: not modelled. Such text is read as a `ValueError`.
- Keyword arguments and calls with more than one positional argument: `call_history` formats `str(*args)` for the single value that `store` takes.
- `replay` printing: it returns a `Report`, and the printed formatting is not modelled. The source reads the module-level `cache`; here the cache is a parameter.
- Other clients of the same server between the commands of one call: not modelled. Each call's commands run back to back.
- LRANGE with ranges other than 0 -1: not modelled.
- INCRBY with a non-integer stored counter: modelled, but no cache operation can produce one from a flushed server.
- The MongoDB scripts in `0x01-NoSQL`: not part of this model. Each is a single pass-through driver call or printing.
