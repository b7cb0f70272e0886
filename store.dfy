/**
 * The Redis connection shared by the cache and the rate limiter, reduced to the commands the
 * service uses: INCR, EXPIRE, TTL, EXISTS, SETEX, GET, DEL and FLUSHDB.
 *
 * A key holds either an integer string (what INCR works on) or a JSON document, kept as its
 * field map. The clock is explicit (seconds); an entry whose expiry time has been reached is
 * removed when the clock advances. The connection's reliability is a plan of answers: every
 * command consumes the plan's first entry, and `true` there means that command errors and has
 * no effect. An empty plan is a healthy connection.
 */
module Store {
  import opened Js

  datatype Value = Count(n: int) | Doc(fields: map<string, JsValue>)

  datatype Entry = Entry(value: Value, expiresAt: Option<int>)

  datatype Db = Db(data: map<string, Entry>, now: int, faults: seq<bool>)

  /** What a command answers: its reply, or the error the Redis client raises. */
  datatype Reply<+T> = Done(value: T) | Failed

  datatype Step<+T> = Step(db: Db, reply: Reply<T>)

  /** The next command errors. */
  predicate NextFails(db: Db) {
    |db.faults| > 0 && db.faults[0]
  }

  /** Every remaining planned answer succeeds. */
  predicate Up(db: Db) {
    forall i :: 0 <= i < |db.faults| ==> !db.faults[i]
  }

  /** The state after one command has consumed its planned answer. */
  function Answered(db: Db): (r: Db)
    ensures r.data == db.data && r.now == db.now
    ensures Up(db) ==> Up(r) && !NextFails(db)
  {
    db.(faults := if |db.faults| == 0 then [] else db.faults[1..])
  }

  /** JSON.stringify/JSON.parse on one field: undefined fields are dropped, NaN and the infinities become null. */
  function Stored(v: JsValue): JsValue {
    if v.NaN? || v.Inf? then Null else v
  }

  /** The document a flat object literal serialises to. */
  function MakeDoc(fields: seq<(string, JsValue)>): (r: map<string, JsValue>)
    ensures forall k :: k in r ==> !r[k].Undefined?
  {
    if fields == [] then map[]
    else
      var rest := MakeDoc(fields[..|fields| - 1]);
      var (k, v) := fields[|fields| - 1];
      if v.Undefined? then rest - {k} else rest[k := Stored(v)]
  }

  /** `obj.name` on a value read back from the store. */
  function Field(v: Value, name: string): JsValue {
    match v
    case Count(_) => Undefined
    case Doc(fields) => if name in fields then fields[name] else Undefined
  }

  /** Truthiness of a parsed stored value (a document is an object; a counter is a number). */
  predicate ValueTruthy(v: Value) {
    match v
    case Count(n) => n != 0
    case Doc(_) => true
  }

  /** INCR: an absent key starts at 1 without expiry; a counter keeps its expiry. */
  function IncrStep(db: Db, key: string): (r: Step<int>)
    ensures r.db.now == db.now && r.db.faults == Answered(db).faults
    ensures forall k :: k != key ==> (k in r.db.data <==> k in db.data)
    ensures forall k :: k != key && k in db.data ==> r.db.data[k] == db.data[k]
  {
    var d := Answered(db);
    if NextFails(db) then Step(d, Failed)
    else if key !in db.data then Step(d.(data := db.data[key := Entry(Count(1), None)]), Done(1))
    else match db.data[key].value
      case Count(n) => Step(d.(data := db.data[key := Entry(Count(n + 1), db.data[key].expiresAt)]), Done(n + 1))
      case Doc(_) => Step(d, Failed)
  }

  /** EXPIRE: a live key gets a new expiry; a non-positive one deletes it. Answers whether the key existed. */
  function ExpireStep(db: Db, key: string, seconds: int): (r: Step<bool>)
    ensures r.db.now == db.now && r.db.faults == Answered(db).faults
    ensures forall k :: k != key ==> (k in r.db.data <==> k in db.data)
    ensures forall k :: k != key && k in db.data ==> r.db.data[k] == db.data[k]
  {
    var d := Answered(db);
    if NextFails(db) then Step(d, Failed)
    else if key !in db.data then Step(d, Done(false))
    else if seconds <= 0 then Step(d.(data := db.data - {key}), Done(true))
    else Step(d.(data := db.data[key := db.data[key].(expiresAt := Some(db.now + seconds))]), Done(true))
  }

  /** TTL: -2 for an absent key, -1 for a key without expiry, otherwise the seconds left. */
  function TtlStep(db: Db, key: string): (r: Step<int>)
    ensures r.db == Answered(db)
  {
    var d := Answered(db);
    if NextFails(db) then Step(d, Failed)
    else if key !in db.data then Step(d, Done(-2))
    else match db.data[key].expiresAt
      case None => Step(d, Done(-1))
      case Some(t) => Step(d, Done(t - db.now))
  }

  /** EXISTS: 1 when the key is live, 0 otherwise. */
  function ExistsStep(db: Db, key: string): (r: Step<int>)
    ensures r.db == Answered(db)
  {
    var d := Answered(db);
    if NextFails(db) then Step(d, Failed)
    else Step(d, Done(if key in db.data then 1 else 0))
  }

  /** SETEX: stores with expiry; Redis refuses a non-positive expire time. */
  function SetExStep(db: Db, key: string, seconds: int, v: Value): (r: Step<()>)
    ensures r.db.now == db.now && r.db.faults == Answered(db).faults
    ensures forall k :: k != key ==> (k in r.db.data <==> k in db.data)
    ensures forall k :: k != key && k in db.data ==> r.db.data[k] == db.data[k]
  {
    var d := Answered(db);
    if NextFails(db) || seconds <= 0 then Step(d, Failed)
    else Step(d.(data := db.data[key := Entry(v, Some(db.now + seconds))]), Done(()))
  }

  /** GET */
  function GetStep(db: Db, key: string): (r: Step<Option<Value>>)
    ensures r.db == Answered(db)
  {
    var d := Answered(db);
    if NextFails(db) then Step(d, Failed)
    else Step(d, Done(if key in db.data then Some(db.data[key].value) else None))
  }

  /** DEL: removes the key when the store answers, and answers the number of keys removed. */
  function DelStep(db: Db, key: string): (r: Step<int>)
    ensures r.db.now == db.now && r.db.faults == Answered(db).faults
    ensures !NextFails(db) ==> r.db.data == db.data - {key} && r.reply == Done(if key in db.data then 1 else 0)
    ensures NextFails(db) ==> r.db.data == db.data && r.reply == Failed
  {
    var d := Answered(db);
    if NextFails(db) then Step(d, Failed)
    else Step(d.(data := db.data - {key}), Done(if key in db.data then 1 else 0))
  }

  /** FLUSHDB: empties the whole database. */
  function FlushDbStep(db: Db): (r: Step<()>)
    ensures r.db.now == db.now && r.db.faults == Answered(db).faults
    ensures !NextFails(db) ==> r.db.data == map[]
    ensures NextFails(db) ==> r.db.data == db.data
  {
    var d := Answered(db);
    if NextFails(db) then Step(d, Failed) else Step(d.(data := map[]), Done(()))
  }

  /** The clock moves on; every entry whose expiry time is reached disappears. */
  function Advance(db: Db, seconds: nat): (r: Db)
    ensures r.now == db.now + seconds && r.faults == db.faults
    ensures forall k :: k in r.data <==>
      k in db.data && (db.data[k].expiresAt.None? || db.now + seconds < db.data[k].expiresAt.value)
    ensures forall k :: k in r.data ==> r.data[k] == db.data[k]
  {
    var t := db.now + seconds;
    db.(now := t, data := map k | k in db.data && (db.data[k].expiresAt.None? || t < db.data[k].expiresAt.value) :: db.data[k])
  }

  /** The shared connection, whose commands are the steps above. */
  class RedisStore {
    var data: map<string, Entry>
    var now: int
    var faults: seq<bool>

    function State(): Db
      reads this
    {
      Db(data, now, faults)
    }

    constructor (plan: seq<bool>)
      ensures State() == Db(map[], 0, plan)
    {
      data, now, faults := map[], 0, plan;
    }

    method Incr(key: string) returns (r: Reply<int>)
      modifies this
      ensures Step(State(), r) == IncrStep(old(State()), key)
    {
      var s := IncrStep(State(), key);
      data, now, faults, r := s.db.data, s.db.now, s.db.faults, s.reply;
    }

    method Expire(key: string, seconds: int) returns (r: Reply<bool>)
      modifies this
      ensures Step(State(), r) == ExpireStep(old(State()), key, seconds)
    {
      var s := ExpireStep(State(), key, seconds);
      data, now, faults, r := s.db.data, s.db.now, s.db.faults, s.reply;
    }

    method Ttl(key: string) returns (r: Reply<int>)
      modifies this
      ensures Step(State(), r) == TtlStep(old(State()), key)
    {
      var s := TtlStep(State(), key);
      data, now, faults, r := s.db.data, s.db.now, s.db.faults, s.reply;
    }

    method Exists(key: string) returns (r: Reply<int>)
      modifies this
      ensures Step(State(), r) == ExistsStep(old(State()), key)
    {
      var s := ExistsStep(State(), key);
      data, now, faults, r := s.db.data, s.db.now, s.db.faults, s.reply;
    }

    method SetEx(key: string, seconds: int, v: Value) returns (r: Reply<()>)
      modifies this
      ensures Step(State(), r) == SetExStep(old(State()), key, seconds, v)
    {
      var s := SetExStep(State(), key, seconds, v);
      data, now, faults, r := s.db.data, s.db.now, s.db.faults, s.reply;
    }

    method Get(key: string) returns (r: Reply<Option<Value>>)
      modifies this
      ensures Step(State(), r) == GetStep(old(State()), key)
    {
      var s := GetStep(State(), key);
      data, now, faults, r := s.db.data, s.db.now, s.db.faults, s.reply;
    }

    method Del(key: string) returns (r: Reply<int>)
      modifies this
      ensures Step(State(), r) == DelStep(old(State()), key)
    {
      var s := DelStep(State(), key);
      data, now, faults, r := s.db.data, s.db.now, s.db.faults, s.reply;
    }

    method FlushDb() returns (r: Reply<()>)
      modifies this
      ensures Step(State(), r) == FlushDbStep(old(State()))
    {
      var s := FlushDbStep(State());
      data, now, faults, r := s.db.data, s.db.now, s.db.faults, s.reply;
    }

    /** Time passes between requests. */
    method Tick(seconds: nat)
      modifies this
      ensures State() == Advance(old(State()), seconds)
    {
      var d := Advance(State(), seconds);
      data, now, faults := d.data, d.now, d.faults;
    }
  }
}
