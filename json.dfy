/**
 * JSON values as the front end receives and sends them, with the JavaScript
 * conversions applied to them: truthiness, `String(v)`, `JSON.stringify`, and
 * `JSON.parse` for the flat objects of strings the session store holds.
 */
module Json {
  import opened Wrappers
  import opened Builtins

  datatype Json =
    | JNull
    | JBool(b: bool)
    | JNum(n: int)
    | JStr(s: string)
    | JArr(items: seq<Json>)
    | JObj(members: seq<Member>)

  datatype Member = Member(key: string, value: Json)

  /** JavaScript truthiness of a parsed value. */
  predicate Truthy(j: Json) {
    match j
    case JNull => false
    case JBool(b) => b
    case JNum(n) => n != 0
    case JStr(s) => s != ""
    case JArr(_) => true
    case JObj(_) => true
  }

  /** `obj[key]`: the first member with that key; `None` stands for `undefined`. */
  function Lookup(members: seq<Member>, key: string): (r: Option<Json>)
    ensures r.Some? <==> exists i :: 0 <= i < |members| && members[i].key == key
    ensures r.Some? ==> Member(key, r.value) in members
  {
    if members == [] then None
    else if members[0].key == key then Some(members[0].value)
    else Lookup(members[1..], key)
  }

  /** Members with other keys in front do not change what `Lookup` finds. */
  lemma {:induction false} LookupPastHead(head: seq<Member>, rest: seq<Member>, key: string)
    requires forall i :: 0 <= i < |head| ==> head[i].key != key
    ensures Lookup(head + rest, key) == Lookup(rest, key)
  {
    if head != [] {
      var whole := head + rest;
      assert whole[0] == head[0];
      assert whole[1..] == head[1..] + rest;
      LookupPastHead(head[1..], rest, key);
    } else {
      assert head + rest == rest;
    }
  }

  /** The first member with a key is the one `Lookup` finds. */
  lemma {:induction false} LookupAt(ms: seq<Member>, i: nat, key: string)
    requires i < |ms| && ms[i].key == key
    requires forall j :: 0 <= j < i ==> ms[j].key != key
    ensures Lookup(ms, key) == Some(ms[i].value)
  {
    if i > 0 {
      LookupAt(ms[1..], i - 1, key);
    }
  }

  /** The keys of an object, in order. */
  function Keys(members: seq<Member>): (r: seq<string>)
    ensures |r| == |members|
    ensures forall i :: 0 <= i < |members| ==> r[i] == members[i].key
  {
    seq(|members|, i requires 0 <= i < |members| => members[i].key)
  }

  /** `{...obj, [key]: v}`: the key reads the new value and every other key
      reads what it did before. */
  function Assign(members: seq<Member>, key: string, v: Json): (r: seq<Member>)
    ensures Lookup(r, key) == Some(v)
    ensures forall k :: k != key ==> Lookup(r, k) == Lookup(members, k)
    ensures IsFlat(members) && v.JStr? ==> IsFlat(r)
  {
    if members == [] then [Member(key, v)]
    else if members[0].key == key then [Member(key, v)] + members[1..]
    else [members[0]] + Assign(members[1..], key, v)
  }

  lemma KeysCons(m: Member, ms: seq<Member>)
    ensures Keys([m] + ms) == [m.key] + Keys(ms)
  {
  }

  /** An existing key keeps its place; a new key is added at the end. */
  lemma {:induction false} AssignKeys(members: seq<Member>, key: string, v: Json)
    ensures Keys(Assign(members, key, v)) == if key in Keys(members) then Keys(members) else Keys(members) + [key]
  {
    if members == [] {
      assert Keys([Member(key, v)]) == [key];
    } else {
      var head, tail := members[0], members[1..];
      assert members == [head] + tail;
      KeysCons(head, tail);
      if head.key == key {
        assert Assign(members, key, v) == [Member(key, v)] + tail;
        KeysCons(Member(key, v), tail);
        assert Keys(members)[0] == key;
        assert Keys(Assign(members, key, v)) == Keys(members);
      } else {
        var rest := Assign(tail, key, v);
        AssignKeys(tail, key, v);
        KeysCons(head, rest);
        assert key in Keys(members) <==> key in Keys(tail);
        if key !in Keys(tail) {
          assert [head.key] + (Keys(tail) + [key]) == ([head.key] + Keys(tail)) + [key];
        }
      }
    }
  }

  /** Assigning never moves the keys already in front. */
  lemma AssignKeepsKeyPrefix(members: seq<Member>, key: string, v: Json, n: nat)
    requires n <= |members|
    ensures n <= |Assign(members, key, v)|
    ensures Keys(Assign(members, key, v))[..n] == Keys(members)[..n]
  {
    AssignKeys(members, key, v);
    var before := Keys(members);
    if key !in before {
      assert (before + [key])[..n] == before[..n];
    }
  }

  /** `j.key` on any value: only objects have members. */
  function Get(j: Json, key: string): Option<Json> {
    if j.JObj? then Lookup(j.members, key) else None
  }

  // ---------------------------------------------------------------------------
  // String(v)
  // ---------------------------------------------------------------------------

  /** `String(v)`: arrays join their items with commas, writing `null` items as
      nothing; every object reads `[object Object]`. */
  function ToText(j: Json): string {
    match j
    case JNull => "null"
    case JBool(b) => if b then "true" else "false"
    case JNum(n) => IntToString(n)
    case JStr(s) => s
    case JArr(items) => JoinTexts(items)
    case JObj(_) => "[object Object]"
  }

  function JoinTexts(items: seq<Json>): string {
    if items == [] then ""
    else
      (if items[0].JNull? then "" else ToText(items[0]))
      + (if |items| == 1 then "" else "," + JoinTexts(items[1..]))
  }

  // ---------------------------------------------------------------------------
  // JSON.stringify
  // ---------------------------------------------------------------------------

  function EscapeChar(c: char): string {
    if c == '"' || c == '\\' then ['\\', c] else [c]
  }

  function Escape(s: string): string {
    if s == [] then [] else EscapeChar(s[0]) + Escape(s[1..])
  }

  function Quote(s: string): string {
    "\"" + Escape(s) + "\""
  }

  /** `JSON.stringify(j)`, without spacing. */
  function Stringify(j: Json): string {
    match j
    case JNull => "null"
    case JBool(b) => if b then "true" else "false"
    case JNum(n) => IntToString(n)
    case JStr(s) => Quote(s)
    case JArr(items) => "[" + StringifyItems(items) + "]"
    case JObj(ms) => "{" + StringifyMembers(ms) + "}"
  }

  function StringifyItems(items: seq<Json>): string {
    if items == [] then ""
    else Stringify(items[0]) + (if |items| == 1 then "" else "," + StringifyItems(items[1..]))
  }

  function StringifyMembers(ms: seq<Member>): string {
    if ms == [] then ""
    else
      Quote(ms[0].key) + ":" + Stringify(ms[0].value)
      + (if |ms| == 1 then "" else "," + StringifyMembers(ms[1..]))
  }

  // ---------------------------------------------------------------------------
  // JSON.parse, for flat objects of strings
  // ---------------------------------------------------------------------------

  /** An object every member of which holds a string. */
  predicate IsFlat(ms: seq<Member>) {
    forall i :: 0 <= i < |ms| ==> ms[i].value.JStr?
  }

  /** Reads the rest of a string literal whose opening quote is already consumed:
      the string's value and what follows its closing quote. */
  function ParseString(s: string): (r: Option<(string, string)>)
    ensures r.Some? ==> |r.value.1| < |s|
  {
    if s == [] then None
    else if s[0] == '"' then Some(([], s[1..]))
    else if s[0] == '\\' then
      if |s| >= 2 && (s[1] == '"' || s[1] == '\\') then
        match ParseString(s[2..])
        case None => None
        case Some((v, rest)) => Some(([s[1]] + v, rest))
      else None
    else
      match ParseString(s[1..])
      case None => None
      case Some((v, rest)) => Some(([s[0]] + v, rest))
  }

  /** Reads one `"key":"value"` pair and returns it with what follows it. */
  function ParsePair(s: string): (r: Option<(Member, string)>)
    ensures r.Some? ==> |r.value.1| < |s| && r.value.0.value.JStr?
  {
    if s == [] || s[0] != '"' then None
    else
      match ParseString(s[1..])
      case None => None
      case Some((k, r1)) =>
        if |r1| < 2 || r1[0] != ':' || r1[1] != '"' then None
        else
          match ParseString(r1[2..])
          case None => None
          case Some((v, r2)) => Some((Member(k, JStr(v)), r2))
  }

  /** Reads pairs separated by commas up to and including the closing brace;
      returns them and what follows the brace. */
  function ParseMembers(s: string): (r: Option<(seq<Member>, string)>)
    ensures r.Some? ==> |r.value.1| < |s|
    decreases |s|
  {
    match ParsePair(s)
    case None => None
    case Some((m, r2)) =>
      if r2 == [] then None
      else if r2[0] == '}' then Some(([m], r2[1..]))
      else if r2[0] == ',' then
        match ParseMembers(r2[1..])
        case None => None
        case Some((ms, r3)) => Some(([m] + ms, r3))
      else None
  }

  /** No two members share a key, as in any object `JSON.stringify` writes. */
  predicate DistinctKeys(ms: seq<Member>) {
    forall i, j :: 0 <= i < j < |ms| ==> ms[i].key != ms[j].key
  }

  /** The object `JSON.parse` builds from the pairs it reads, in order, on top of
      `acc`: a repeated key keeps its first place and takes its last value. */
  function FromPairs(acc: seq<Member>, pairs: seq<Member>): (r: seq<Member>)
    ensures IsFlat(acc) && IsFlat(pairs) ==> IsFlat(r)
    decreases |pairs|
  {
    if pairs == [] then acc
    else FromPairs(Assign(acc, pairs[0].key, pairs[0].value), pairs[1..])
  }

  /** `JSON.parse(s)` for the compact text `JSON.stringify` writes for an object of
      strings: no whitespace between tokens and only the `\"` and `\\` escapes.
      `None` for any other text, including valid JSON in another layout. */
  function ParseFlatObject(s: string): (r: Option<seq<Member>>)
    ensures r.Some? ==> IsFlat(r.value)
  {
    if s == "{}" then Some([])
    else if s == [] || s[0] != '{' then None
    else
      match ParseMembers(s[1..])
      case None => None
      case Some((ms, rest)) => if rest == [] && IsFlat(ms) then Some(FromPairs([], ms)) else None
  }

  /** Assigning a key the object does not have appends it. */
  lemma {:induction false} AssignNew(acc: seq<Member>, key: string, v: Json)
    requires forall i :: 0 <= i < |acc| ==> acc[i].key != key
    ensures Assign(acc, key, v) == acc + [Member(key, v)]
  {
    if acc != [] {
      AssignNew(acc[1..], key, v);
      assert [acc[0]] + (acc[1..] + [Member(key, v)]) == acc + [Member(key, v)];
    }
  }

  /** Reading the pair at position `n`, whose key no earlier pair has, appends it. */
  lemma FromPairsStep(whole: seq<Member>, n: nat)
    requires DistinctKeys(whole) && n < |whole|
    ensures FromPairs(whole[..n], whole[n..]) == FromPairs(whole[..n + 1], whole[n + 1..])
  {
    var acc, m := whole[..n], whole[n];
    forall i | 0 <= i < |acc| ensures acc[i].key != m.key {
      assert acc[i] == whole[i];
    }
    AssignNew(acc, m.key, m.value);
    assert acc + [m] == whole[..n + 1];
    assert whole[n..][1..] == whole[n + 1..];
  }

  /** Pairs with distinct keys build exactly the object they list: reading the
      pairs from position `n` on top of the ones before gives the whole list. */
  lemma {:induction false} FromPairsDistinct(whole: seq<Member>, n: nat)
    requires DistinctKeys(whole) && n <= |whole|
    ensures FromPairs(whole[..n], whole[n..]) == whole
    decreases |whole| - n
  {
    if n == |whole| {
      assert whole[..n] == whole;
    } else {
      FromPairsStep(whole, n);
      FromPairsDistinct(whole, n + 1);
    }
  }

  /** The last pair read is applied last. */
  lemma {:induction false} FromPairsSnoc(acc: seq<Member>, pairs: seq<Member>, m: Member)
    ensures FromPairs(acc, pairs + [m]) == Assign(FromPairs(acc, pairs), m.key, m.value)
    decreases |pairs|
  {
    if pairs == [] {
      assert [] + [m] == [m];
    } else {
      assert (pairs + [m])[0] == pairs[0];
      assert (pairs + [m])[1..] == pairs[1..] + [m];
      FromPairsSnoc(Assign(acc, pairs[0].key, pairs[0].value), pairs[1..], m);
    }
  }

  /** Of the pairs read for one key, the last one wins. */
  lemma LastPairWins(acc: seq<Member>, pairs: seq<Member>, m: Member)
    ensures Lookup(FromPairs(acc, pairs + [m]), m.key) == Some(m.value)
  {
    FromPairsSnoc(acc, pairs, m);
  }

  /** A string literal written by `Quote` reads back as the same string, leaving
      exactly what followed it. */
  lemma {:induction false} ParseEscaped(v: string, rest: string)
    ensures ParseString(Escape(v) + "\"" + rest) == Some((v, rest))
  {
    if v == [] {
      assert Escape(v) + "\"" + rest == ['"'] + rest;
    } else {
      ParseEscaped(v[1..], rest);
      var tail := Escape(v[1..]) + "\"" + rest;
      assert Escape(v) + "\"" + rest == EscapeChar(v[0]) + tail;
      if v[0] == '"' || v[0] == '\\' {
        assert (EscapeChar(v[0]) + tail)[2..] == tail;
      } else {
        assert (EscapeChar(v[0]) + tail)[1..] == tail;
      }
      assert [v[0]] + v[1..] == v;
    }
  }

  /** A quoted string followed by anything starts with a quote, and its
      literal reads back as the string, leaving what followed. */
  lemma ParseQuoted(a: string, rest: string)
    ensures |Quote(a) + rest| > 0 && (Quote(a) + rest)[0] == '"'
    ensures ParseString((Quote(a) + rest)[1..]) == Some((a, rest))
  {
    assert (Quote(a) + rest)[1..] == Escape(a) + "\"" + rest;
    ParseEscaped(a, rest);
  }

  /** A pair written by `StringifyMembers` reads back as the same pair. */
  lemma ParseStringifiedPair(k: string, v: string, tail: string)
    ensures ParsePair(Quote(k) + ":" + Quote(v) + tail) == Some((Member(k, JStr(v)), tail))
  {
    var r2 := Quote(v) + tail;
    var r1 := ":" + r2;
    var s := Quote(k) + r1;
    assert Quote(k) + ":" + Quote(v) + tail == s;
    ParseQuoted(k, r1);
    ParseQuoted(v, tail);
    assert r1[1] == r2[0];
    assert r1[2..] == r2[1..];
  }

  /** One step of `StringifyMembers` on an object of strings. */
  lemma StringifyMembersStep(ms: seq<Member>)
    requires ms != [] && IsFlat(ms)
    ensures StringifyMembers(ms) ==
            Quote(ms[0].key) + ":" + Quote(ms[0].value.s)
            + (if |ms| == 1 then "" else "," + StringifyMembers(ms[1..]))
  {
    assert Stringify(ms[0].value) == Quote(ms[0].value.s);
  }

  /** A pair followed by the closing brace ends the members. */
  lemma ParseMembersLast(s: string, m: Member, t: string)
    requires ParsePair(s) == Some((m, t)) && |t| > 0 && t[0] == '}'
    ensures ParseMembers(s) == Some(([m], t[1..]))
  {
  }

  /** A pair followed by a comma is followed by more members. */
  lemma ParseMembersMore(s: string, m: Member, t: string, ms: seq<Member>, r: string)
    requires ParsePair(s) == Some((m, t)) && |t| > 0 && t[0] == ','
    requires ParseMembers(t[1..]) == Some((ms, r))
    ensures ParseMembers(s) == Some(([m] + ms, r))
  {
  }

  /** The members written by `StringifyMembers` read back as the same members. */
  lemma {:induction false} ParseStringifiedMembers(ms: seq<Member>, rest: string)
    requires ms != [] && IsFlat(ms)
    ensures ParseMembers(StringifyMembers(ms) + "}" + rest) == Some((ms, rest))
  {
    var k, v := ms[0].key, ms[0].value.s;
    var head := Quote(k) + ":" + Quote(v);
    var s := StringifyMembers(ms) + "}" + rest;
    StringifyMembersStep(ms);
    assert ms == [Member(k, JStr(v))] + ms[1..];
    if |ms| == 1 {
      var tail := "}" + rest;
      assert s == head + tail;
      ParseStringifiedPair(k, v, tail);
      assert tail[1..] == rest;
      ParseMembersLast(s, Member(k, JStr(v)), tail);
      assert [Member(k, JStr(v))] == ms;
    } else {
      var more := StringifyMembers(ms[1..]) + "}" + rest;
      var tail := "," + more;
      assert s == head + tail;
      ParseStringifiedPair(k, v, tail);
      assert tail[1..] == more;
      ParseStringifiedMembers(ms[1..], rest);
      ParseMembersMore(s, Member(k, JStr(v)), tail, ms[1..], rest);
    }
  }

  /** `JSON.parse(JSON.stringify(o))` gives back `o` for an object of strings. */
  lemma FlatObjectRoundTrip(ms: seq<Member>)
    requires IsFlat(ms) && DistinctKeys(ms)
    ensures ParseFlatObject(Stringify(JObj(ms))) == Some(ms)
  {
    if ms != [] {
      var s := Stringify(JObj(ms));
      ParseStringifiedMembers(ms, "");
      assert s[1..] == StringifyMembers(ms) + "}" + "";
      assert s != "{}" by {
        assert StringifyMembers(ms)[0] == '"';
        assert s[1] == '"';
      }
      assert ms[..0] == [] && ms[0..] == ms;
      FromPairsDistinct(ms, 0);
    }
  }
}
