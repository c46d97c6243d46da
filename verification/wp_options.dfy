/**
 * The host's options table and the transient API the report cache is
 * built on.  A transient `name` with an expiry is two option rows:
 * `_transient_<name>` holds the value and `_transient_timeout_<name>`
 * the absolute expiry time.  Reading an expired transient deletes both
 * rows and yields PHP's `false`; the clock is a parameter.
 */
module WpOptions {

  /** One column of a result row, as the database driver returns it. */
  datatype Cell = Null | Number(n: real) | Text(s: string)

  type Row = map<string, Cell>

  /**
   * A query result or a transient's payload.  `False` is PHP's `false`,
   * the value `get_transient` returns for a miss.
   */
  datatype Value = False | Var(cell: Cell) | Col(cells: seq<Cell>) | Rows(rows: seq<Row>)

  datatype OptionValue = Payload(value: Value) | Int(n: int) | Str(s: string)

  type Table = map<string, OptionValue>

  const TransientPrefix := "_transient_"
  const TimeoutPrefix := "_transient_timeout_"

  function ValueRow(name: string): string {
    TransientPrefix + name
  }

  function TimeoutRow(name: string): string {
    TimeoutPrefix + name
  }

  /** What `get_option` hands back for a stored row. */
  function AsValue(o: OptionValue): Value {
    match o
    case Payload(v) => v
    case Int(n) => Var(Number(n as real))
    case Str(s) => Var(Text(s))
  }

  /** The timeout row exists and lies strictly before `now`. */
  predicate Expired(t: Table, name: string, now: int) {
    TimeoutRow(name) in t && t[TimeoutRow(name)].Int? && t[TimeoutRow(name)].n < now
  }

  /**
   * `get_transient(name)` at time `now`: the value read and the table
   * afterwards (an expired transient is deleted on read).
   */
  function TransientRead(t: Table, name: string, now: int): (Value, Table) {
    if Expired(t, name, now) then (False, t - {ValueRow(name), TimeoutRow(name)})
    else if ValueRow(name) in t then (AsValue(t[ValueRow(name)]), t)
    else (False, t)
  }

  /** `set_transient(name, v, ttl)` at time `now`, for a positive `ttl`. */
  function TransientWrite(t: Table, name: string, v: Value, ttl: int, now: int): Table
    requires ttl > 0
  {
    t[TimeoutRow(name) := Int(now + ttl)][ValueRow(name) := Payload(v)]
  }

  lemma ValueRowInjective(a: string, b: string)
    requires ValueRow(a) == ValueRow(b)
    ensures a == b
  {
    assert a == ValueRow(a)[|TransientPrefix|..];
  }

  lemma TimeoutRowInjective(a: string, b: string)
    requires TimeoutRow(a) == TimeoutRow(b)
    ensures a == b
  {
    assert a == TimeoutRow(a)[|TimeoutPrefix|..];
  }

  /** The value row of `a` is the timeout row of `b` only when `a` is `timeout_` + `b`. */
  lemma ValueRowIsNotTimeoutRow(a: string, b: string)
    requires !StartsWithTimeout(a)
    ensures ValueRow(a) != TimeoutRow(b)
  {
    var v, t := ValueRow(a), TimeoutRow(b);
    assert t[11..19] == "timeout_";
    if |v| == |t| {
      assert v[11..19] == a[..8] != "timeout_";
    }
  }

  predicate StartsWithTimeout(name: string) {
    |name| >= 8 && name[..8] == "timeout_"
  }

  /** A value stored with `ttl` is read back unchanged until `stored + ttl`, inclusive. */
  lemma ReadWithinTtl(t: Table, name: string, v: Value, ttl: int, stored: int, now: int)
    requires ttl > 0 && now <= stored + ttl
    requires !StartsWithTimeout(name)
    ensures TransientRead(TransientWrite(t, name, v, ttl, stored), name, now)
            == (v, TransientWrite(t, name, v, ttl, stored))
  {
    ValueRowIsNotTimeoutRow(name, name);
  }

  /** After `stored + ttl` the read misses and both rows are gone. */
  lemma ReadAfterTtl(t: Table, name: string, v: Value, ttl: int, stored: int, now: int)
    requires ttl > 0 && now > stored + ttl
    requires !StartsWithTimeout(name)
    ensures var (r, t') := TransientRead(TransientWrite(t, name, v, ttl, stored), name, now);
            r == False && ValueRow(name) !in t' && TimeoutRow(name) !in t'
  {
    ValueRowIsNotTimeoutRow(name, name);
  }

  /** Writing one transient leaves what another transient reads unchanged. */
  lemma WriteIsolated(t: Table, a: string, b: string, v: Value, ttl: int, stored: int, now: int)
    requires ttl > 0 && a != b
    requires !StartsWithTimeout(a) && !StartsWithTimeout(b)
    ensures TransientRead(TransientWrite(t, a, v, ttl, stored), b, now).0 == TransientRead(t, b, now).0
  {
    if ValueRow(a) == ValueRow(b) { ValueRowInjective(a, b); }
    if TimeoutRow(a) == TimeoutRow(b) { TimeoutRowInjective(a, b); }
    ValueRowIsNotTimeoutRow(a, b);
    ValueRowIsNotTimeoutRow(b, a);
  }

  /** The options table of one site; transients live in it as pairs of rows. */
  class Options {
    var table: Table

    constructor (initial: Table)
      ensures table == initial
    {
      table := initial;
    }

    /** `get_option(name, default)`. */
    method GetOption(name: string, default: OptionValue) returns (o: OptionValue)
      ensures o == if name in table then table[name] else default
    {
      o := if name in table then table[name] else default;
    }

    /** `get_transient(name)` at time `now`. */
    method GetTransient(name: string, now: int) returns (v: Value)
      modifies this
      ensures (v, table) == TransientRead(old(table), name, now)
    {
      if Expired(table, name, now) {
        table := table - {ValueRow(name), TimeoutRow(name)};
        v := False;
      } else if ValueRow(name) in table {
        v := AsValue(table[ValueRow(name)]);
      } else {
        v := False;
      }
    }

    /** `set_transient(name, v, ttl)` at time `now`. */
    method SetTransient(name: string, v: Value, ttl: int, now: int)
      requires ttl > 0
      modifies this
      ensures table == TransientWrite(old(table), name, v, ttl, now)
    {
      table := table[TimeoutRow(name) := Int(now + ttl)];
      table := table[ValueRow(name) := Payload(v)];
    }
  }
}
