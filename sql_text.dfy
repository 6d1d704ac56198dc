/** The MariaDB statement text that both `mariaConnect` revisions build from
    the first row's keys: the field list, the `VALUES` group of named
    placeholders, the `ON DUPLICATE KEY UPDATE` clauses, and how pymysql
    binds a row to that text. */
module SqlText {
  import opened PyObjects
  import opened Text
  import opened PercentFormat

  /** Placeholder suffix of the current revision (`%(f)s`). */
  const Pyformat: string := "s"
  /** Placeholder suffix of the older revision (`%(f)`, no conversion). */
  const BareKey: string := ""

  function Placeholder(field: string, suffix: string): string
  {
    "%(" + field + ")" + suffix
  }

  function Placeholders(fields: seq<string>, suffix: string): (ps: seq<string>)
    ensures |ps| == |fields|
    ensures forall i :: 0 <= i < |fields| ==> ps[i] == Placeholder(fields[i], suffix)
  {
    seq(|fields|, i requires 0 <= i < |fields| => Placeholder(fields[i], suffix))
  }

  /** `INSERT IGNORE INTO {table} ({", ".join(fields)}) VALUES `. */
  function InsertHead(table: string, fields: seq<string>): string
  {
    "INSERT IGNORE INTO " + table + " (" + Join(", ", fields) + ") VALUES "
  }

  /** The statement `insert` runs for every row. */
  function InsertIgnore(table: string, fields: seq<string>, suffix: string): string
  {
    InsertHead(table, fields) + "(" + Join(", ", Placeholders(fields, suffix)) + ")"
  }

  /** The statement `merge` runs: the insert followed by its update clause. */
  function Upsert(table: string, fields: seq<string>, suffix: string, update: string): string
  {
    InsertIgnore(table, fields, suffix) + " ON DUPLICATE KEY UPDATE " + update + ";"
  }

  function Assignment(field: string): string
  {
    field + "=VALUES(" + field + ")"
  }

  /** `", ".join(f"{i}=VALUES({i})" for i in names)`. */
  function UpdateList(names: seq<string>): string
  {
    Join(", ", seq(|names|, i requires 0 <= i < |names| => Assignment(names[i])))
  }

  /** `f"{target}={target}+1"`: the increment clause. */
  function IncrementUpdate(target: string): string
  {
    target + "=" + target + "+1"
  }

  /** `x in o` for a string `x`: substring test on a string, element
      equality on a list, key membership on a dict; other objects are not
      iterable. */
  function PyIn(x: string, o: Obj): (r: Result<bool>)
    ensures o.List? ==> r == Ok(Scalar(Str(x)) in o.items)
    ensures r.Err? <==> o.Scalar? && !o.v.Str?
  {
    match o
    case List(xs) => Ok(Scalar(Str(x)) in xs)
    case Dict(d) => Ok(x in KeysOf(d))
    case Scalar(Str(s)) => Ok(Contains(s, x))
    case Scalar(_) => Err(TypeError("argument of type '" + TypeName(o) + "' is not iterable"))
  }

  /** `[i for i in fields if i in targets]`; the membership test raises on
      the first field when `targets` is not iterable. */
  function FieldsIn(fields: seq<string>, targets: Obj): Result<seq<string>>
    decreases |fields|
  {
    if fields == [] then Ok([])
    else
      var keep :- PyIn(fields[0], targets);
      var rest :- FieldsIn(fields[1..], targets);
      Ok(if keep then [fields[0]] + rest else rest)
  }

  /** `a` is `b` with some elements removed, the others in their order. */
  predicate Subsequence(a: seq<string>, b: seq<string>)
    decreases |b|
  {
    if b == [] then a == []
    else (a != [] && a[0] == b[0] && Subsequence(a[1..], b[1..])) || Subsequence(a, b[1..])
  }

  /** `[i for i in fields if i in targets]` keeps exactly the fields that
      `targets` contains, in the fields' order; it raises only when a field
      is tested against an object that is not iterable. */
  lemma {:induction false} FieldsInMeans(fields: seq<string>, targets: Obj)
    ensures FieldsIn(fields, targets).Ok? <==> fields == [] || !(targets.Scalar? && !targets.v.Str?)
    ensures FieldsIn(fields, targets).Ok? ==>
              (forall x :: x in FieldsIn(fields, targets).value <==> x in fields && PyIn(x, targets) == Ok(true))
              && Subsequence(FieldsIn(fields, targets).value, fields)
    ensures (forall i :: 0 <= i < |fields| ==> PyIn(fields[i], targets) == Ok(true))
            ==> FieldsIn(fields, targets) == Ok(fields)
    decreases |fields|
  {
    if fields != [] {
      FieldsInMeans(fields[1..], targets);
      assert fields == [fields[0]] + fields[1..];
      if FieldsIn(fields, targets).Ok? {
        var rest := FieldsIn(fields[1..], targets).value;
        if PyIn(fields[0], targets) == Ok(true) {
          assert ([fields[0]] + rest)[1..] == rest;
        }
      }
      if forall i :: 0 <= i < |fields| ==> PyIn(fields[i], targets) == Ok(true) {
        assert forall i :: 0 <= i < |fields[1..]| ==> fields[1..][i] == fields[i + 1];
      }
    }
  }

  /** Every field has a value in the row. */
  predicate AllPresent(fields: seq<string>, row: Row)
  {
    forall i :: 0 <= i < |fields| ==> Get(row, fields[i]).Some?
  }

  /** The driver literal of the row's value under `field`. */
  function LiteralOf(row: Row, field: string, literal: Value -> string): string
  {
    match Get(row, field)
    case Some(v) => literal(v)
    case None => ""
  }

  /** The driver literals of the row's values, in field order. */
  function Bound(fields: seq<string>, row: Row, literal: Value -> string): (vs: seq<string>)
    ensures |vs| == |fields|
    ensures forall i :: 0 <= i < |fields| ==> vs[i] == LiteralOf(row, fields[i], literal)
  {
    seq(|fields|, i requires 0 <= i < |fields| => LiteralOf(row, fields[i], literal))
  }

  predicate PlainKeys(fields: seq<string>)
  {
    forall i :: 0 <= i < |fields| ==> PlainKey(fields[i])
  }

  lemma PresentTail(fields: seq<string>, row: Row)
    requires fields != []
    ensures AllPresent(fields, row) <==> Get(row, fields[0]).Some? && AllPresent(fields[1..], row)
  {
    if Get(row, fields[0]).Some? && AllPresent(fields[1..], row) {
      forall i | 0 <= i < |fields| ensures Get(row, fields[i]).Some? {
        if i > 0 {
          assert fields[i] == fields[1..][i - 1];
        }
      }
    }
  }

  /** Binding `%(f1)s, %(f2)s, ...` to a row gives the row's literals in
      field order, and fails when a field is missing from the row. */
  lemma {:induction false} PlaceholderListBinds(fields: seq<string>, tail: string, row: Row, literal: Value -> string)
    requires fields != [] && PlainKeys(fields) && '%' !in tail
    ensures AllPresent(fields, row) ==>
              Format(Join(", ", Placeholders(fields, Pyformat)) + tail, row, literal)
              == Ok(Join(", ", Bound(fields, row, literal)) + tail)
    ensures !AllPresent(fields, row) ==>
              Format(Join(", ", Placeholders(fields, Pyformat)) + tail, row, literal).Err?
    decreases |fields|
  {
    if |fields| == 1 {
      SinglePlaceholderBinds(fields, tail, row, literal);
    } else {
      PlaceholderListBinds(fields[1..], tail, row, literal);
      PlaceholderConsBinds(fields, tail, row, literal);
    }
  }

  lemma SinglePlaceholderBinds(fields: seq<string>, tail: string, row: Row, literal: Value -> string)
    requires |fields| == 1 && PlainKeys(fields) && '%' !in tail
    ensures AllPresent(fields, row) ==>
              Format(Join(", ", Placeholders(fields, Pyformat)) + tail, row, literal)
              == Ok(Join(", ", Bound(fields, row, literal)) + tail)
    ensures !AllPresent(fields, row) ==>
              Format(Join(", ", Placeholders(fields, Pyformat)) + tail, row, literal).Err?
  {
    var f := fields[0];
    assert Join(", ", Placeholders(fields, Pyformat)) + tail == "%(" + f + ")s" + tail;
    FormatPlaceholder(f, tail, row, literal);
    FormatPlain(tail, row, literal);
    assert Join(", ", Bound(fields, row, literal)) == LiteralOf(row, f, literal);
  }

  /** `%(f1)s, %(f2)s, ...` as the first placeholder, a comma and the rest. */
  lemma PlaceholderListSplits(fields: seq<string>, tail: string)
    requires |fields| > 1
    ensures Join(", ", Placeholders(fields, Pyformat)) + tail
            == "%(" + fields[0] + ")s" + (", " + (Join(", ", Placeholders(fields[1..], Pyformat)) + tail))
  {
    var ps := Placeholders(fields, Pyformat);
    assert ps[1..] == Placeholders(fields[1..], Pyformat);
    assert Join(", ", ps) == ps[0] + ", " + Join(", ", ps[1..]);
  }

  lemma PlaceholderConsBinds(fields: seq<string>, tail: string, row: Row, literal: Value -> string)
    requires |fields| > 1 && PlainKeys(fields) && '%' !in tail
    requires AllPresent(fields[1..], row) ==>
               Format(Join(", ", Placeholders(fields[1..], Pyformat)) + tail, row, literal)
               == Ok(Join(", ", Bound(fields[1..], row, literal)) + tail)
    requires !AllPresent(fields[1..], row) ==>
               Format(Join(", ", Placeholders(fields[1..], Pyformat)) + tail, row, literal).Err?
    ensures AllPresent(fields, row) ==>
              Format(Join(", ", Placeholders(fields, Pyformat)) + tail, row, literal)
              == Ok(Join(", ", Bound(fields, row, literal)) + tail)
    ensures !AllPresent(fields, row) ==>
              Format(Join(", ", Placeholders(fields, Pyformat)) + tail, row, literal).Err?
  {
    var f, rest := fields[0], fields[1..];
    var more := Join(", ", Placeholders(rest, Pyformat)) + tail;
    PlaceholderListSplits(fields, tail);
    assert PlainKey(f);
    FormatPlaceholder(f, ", " + more, row, literal);
    FormatPlainPrefix(", ", more, row, literal);
    PresentTail(fields, row);
    if AllPresent(fields, row) {
      BoundJoinSplits(fields, tail, row, literal);
    }
  }

  lemma BoundJoinSplits(fields: seq<string>, tail: string, row: Row, literal: Value -> string)
    requires |fields| > 1
    ensures Join(", ", Bound(fields, row, literal)) + tail
            == LiteralOf(row, fields[0], literal) + (", " + (Join(", ", Bound(fields[1..], row, literal)) + tail))
  {
    var bs := Bound(fields, row, literal);
    assert bs[1..] == Bound(fields[1..], row, literal);
    assert Join(", ", bs) == bs[0] + ", " + Join(", ", bs[1..]);
  }

  lemma HeadHasNoPercent(table: string, fields: seq<string>)
    requires '%' !in table && PlainKeys(fields)
    ensures '%' !in InsertHead(table, fields) + "("
  {
    JoinNotIn(", ", fields, '%');
  }

  /** The statement of the current `insert` and `merge`, bound to one row:
      the head unchanged, then the row's literals in field order, then the
      update clause; binding fails exactly when a field is missing from the
      row. */
  lemma StatementBinds(table: string, fields: seq<string>, after: string, row: Row, literal: Value -> string)
    requires '%' !in table && '%' !in after && fields != [] && PlainKeys(fields)
    ensures AllPresent(fields, row) ==>
              Format(InsertIgnore(table, fields, Pyformat) + after, row, literal)
              == Ok(InsertHead(table, fields) + "(" + Join(", ", Bound(fields, row, literal)) + ")" + after)
    ensures !AllPresent(fields, row) ==> Format(InsertIgnore(table, fields, Pyformat) + after, row, literal).Err?
  {
    var head := InsertHead(table, fields) + "(";
    var body := Join(", ", Placeholders(fields, Pyformat));
    HeadHasNoPercent(table, fields);
    assert InsertIgnore(table, fields, Pyformat) + after == head + (body + (")" + after));
    PlaceholderListBinds(fields, ")" + after, row, literal);
    FormatPlainPrefix(head, body + (")" + after), row, literal);
    if AllPresent(fields, row) {
      var vals := Join(", ", Bound(fields, row, literal));
      assert head + (vals + (")" + after)) == InsertHead(table, fields) + "(" + vals + ")" + after;
    }
  }

  /** The older revision's `%(f)` placeholders are followed by `,` or `)`,
      never by a conversion character, so no row ever binds to its statement. */
  lemma BareKeysNeverBind(table: string, fields: seq<string>, after: string, row: Row, literal: Value -> string)
    requires '%' !in table && fields != [] && PlainKeys(fields)
    ensures Format(InsertIgnore(table, fields, BareKey) + after, row, literal).Err?
  {
    var head := InsertHead(table, fields) + "(";
    var ps := Placeholders(fields, BareKey);
    var f := fields[0];
    var b := if |fields| == 1 then ")" + after else ", " + Join(", ", ps[1..]) + ")" + after;
    assert Join(", ", ps) + ")" + after == "%(" + f + ")" + b;
    HeadHasNoPercent(table, fields);
    assert InsertIgnore(table, fields, BareKey) + after == head + ("%(" + f + ")" + b);
    FormatBareKeyFails(f, b, row, literal);
    FormatPlainPrefix(head, "%(" + f + ")" + b, row, literal);
  }

  /** A key is in `d.keys()` exactly when `d.get` finds it. */
  lemma KeySetGet(r: Row, k: string)
    ensures k in KeySet(r) <==> Get(r, k).Some?
  {
    GetNone(r, k);
    if Get(r, k).Some? {
      var j :| 0 <= j < |r| && r[j].0 == k;
    }
  }

  /** The key check `row.keys() == fields` is what makes every placeholder
      of the first row's statement bind in every other row. */
  lemma SameKeysBind(first: Row, row: Row)
    requires KeySet(row) == KeySet(first)
    ensures AllPresent(KeysOf(first), row)
  {
    var fs := KeysOf(first);
    forall i | 0 <= i < |fs| ensures Get(row, fs[i]).Some? {
      assert fs[i] in KeySet(first);
      KeySetGet(row, fs[i]);
    }
  }
}
