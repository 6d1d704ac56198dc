/** Python's `template % mapping`, the way pymysql binds a row to a statement
    written with `%(name)s` placeholders: every placeholder is replaced by the
    driver's literal for the row's value under `name`. Only `%%` and
    `%(name)s` are modelled; any other conversion after a key is reported as
    an unsupported format character. */
module PercentFormat {
  import opened PyObjects

  /** Index of the `)` closing a key whose `(` lies before `i`; nested
      parentheses inside the key are counted, as Python does. */
  function KeyEnd(t: string, i: nat, depth: nat): (r: Option<nat>)
    requires i <= |t| && 0 < depth
    ensures r.Some? ==> i <= r.value < |t| && t[r.value] == ')'
    decreases |t| - i
  {
    if i == |t| then None
    else if t[i] == ')' then (if depth == 1 then Some(i) else KeyEnd(t, i + 1, depth - 1))
    else if t[i] == '(' then KeyEnd(t, i + 1, depth + 1)
    else KeyEnd(t, i + 1, depth)
  }

  /** `t % row`, with `literal` standing for the driver's escaping of a value. */
  function Format(t: string, row: Row, literal: Value -> string): Result<string>
    decreases |t|
  {
    if t == [] then Ok([])
    else if t[0] != '%' then
      var rest :- Format(t[1..], row, literal);
      Ok([t[0]] + rest)
    else if |t| == 1 then Err(ValueError("incomplete format"))
    else if t[1] == '%' then
      var rest :- Format(t[2..], row, literal);
      Ok("%" + rest)
    else if t[1] != '(' then Err(ValueError("unsupported format character '" + [t[1]] + "'"))
    else
      match KeyEnd(t, 2, 1)
      case None => Err(ValueError("incomplete format key"))
      case Some(j) =>
        var key := t[2..j];
        match Get(row, key)
        case None => Err(KeyError("'" + key + "'"))
        case Some(v) =>
          if j + 1 == |t| then Err(ValueError("incomplete format"))
          else if t[j + 1] != 's' then Err(ValueError("unsupported format character '" + [t[j + 1]] + "'"))
          else
            var rest :- Format(t[j + 2..], row, literal);
            Ok(literal(v) + rest)
  }

  /** Text without `%` is copied in front of whatever follows. */
  lemma {:induction false} FormatPlainPrefix(a: string, b: string, row: Row, literal: Value -> string)
    requires '%' !in a
    ensures Format(a + b, row, literal)
            == (match Format(b, row, literal)
                case Ok(s) => Ok(a + s)
                case Err(e) => Err(e))
    decreases |a|
  {
    if a != [] {
      assert (a + b)[0] == a[0];
      assert (a + b)[1..] == a[1..] + b;
      FormatPlainPrefix(a[1..], b, row, literal);
      assert [a[0]] + a[1..] == a;
      match Format(b, row, literal)
      case Ok(s) => assert [a[0]] + (a[1..] + s) == a + s;
      case Err(e) =>
    } else {
      assert a + b == b;
      match Format(b, row, literal)
      case Ok(s) => assert a + s == s;
      case Err(e) =>
    }
  }

  /** Text without `%` formats to itself. */
  lemma FormatPlain(a: string, row: Row, literal: Value -> string)
    requires '%' !in a
    ensures Format(a, row, literal) == Ok(a)
  {
    FormatPlainPrefix(a, [], row, literal);
    assert a + [] == a;
  }

  lemma {:induction false} KeyEndPlain(t: string, i: nat, k: nat)
    requires i <= k < |t| && t[k] == ')'
    requires forall m :: i <= m < k ==> t[m] != '(' && t[m] != ')'
    ensures KeyEnd(t, i, 1) == Some(k)
    decreases k - i
  {
    if i < k {
      KeyEndPlain(t, i + 1, k);
    }
  }

  /** A key with no parentheses in it. */
  predicate PlainKey(name: string)
  {
    '(' !in name && ')' !in name && '%' !in name
  }

  /** `%(name)s` becomes the literal of the row's value under `name`, and a
      missing key raises `KeyError`. */
  lemma FormatPlaceholder(name: string, b: string, row: Row, literal: Value -> string)
    requires PlainKey(name)
    ensures Format("%(" + name + ")s" + b, row, literal)
            == (match Get(row, name)
                case None => Err(KeyError("'" + name + "'"))
                case Some(v) =>
                  match Format(b, row, literal)
                  case Ok(s) => Ok(literal(v) + s)
                  case Err(e) => Err(e))
  {
    var t := "%(" + name + ")s" + b;
    var j := 2 + |name|;
    assert t[j] == ')';
    assert forall m :: 2 <= m < j ==> t[m] == name[m - 2];
    KeyEndPlain(t, 2, j);
    assert t[2..j] == name;
    assert t[j + 1] == 's';
    assert t[j + 2..] == b;
  }

  /** `%(name)` followed by anything but `s` (or by nothing) never formats:
      either the key is missing or the conversion character is unsupported. */
  lemma FormatBareKeyFails(name: string, b: string, row: Row, literal: Value -> string)
    requires PlainKey(name)
    requires b == [] || b[0] != 's'
    ensures Format("%(" + name + ")" + b, row, literal).Err?
    ensures Format("%(" + name + ")" + b, row, literal).error.KeyError?
            || Format("%(" + name + ")" + b, row, literal).error.ValueError?
  {
    var t := "%(" + name + ")" + b;
    var j := 2 + |name|;
    assert t[j] == ')';
    assert forall m :: 2 <= m < j ==> t[m] == name[m - 2];
    KeyEndPlain(t, 2, j);
    assert t[2..j] == name;
    if b != [] {
      assert t[j + 1] == b[0];
    }
  }
}
