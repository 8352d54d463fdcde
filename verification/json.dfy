// A reader of JSON texts made of objects and strings (RFC 8259), with no
// knowledge of who wrote them.
module Json {
  import opened Bytes
  import JsonString

  datatype Value = Text(text: Bytes) | Object(members: seq<(Bytes, Value)>)

  // Insignificant whitespace (section 2).
  function Skip(t: Bytes): (r: Bytes)
    ensures |r| <= |t|
  {
    if t != [] && t[0] in {9, 10, 13, 32} then Skip(t[1..]) else t
  }

  // The rest of a text after one structural byte, if that comes next.
  function After(b: byte, t: Bytes): (r: Option<Bytes>)
    ensures r.Some? ==> |r.value| < |t|
  {
    var u := Skip(t);
    if u != [] && u[0] == b then Some(u[1..]) else None
  }

  // A value, and what follows it: a string, or an object in braces.
  function ReadValue(t: Bytes): (r: Option<(Value, Bytes)>)
    ensures r.Some? ==> |r.value.1| < |t|
    decreases |t|, 1
  {
    match After('"' as int, t)
    case Some(u) =>
      (match JsonString.ReadString(u)
       case Some((s, rest)) => Some((Text(s), rest))
       case None => None)
    case None =>
      match After('{' as int, t)
      case None => None
      case Some(u) =>
        match After('}' as int, u)
        case Some(rest) => Some((Object([]), rest))
        case None =>
          match ReadMembers(u)
          case Some((members, rest)) => Some((Object(members), rest))
          case None => None
  }

  // One or more members, up to the closing brace.
  function ReadMembers(t: Bytes): (r: Option<(seq<(Bytes, Value)>, Bytes)>)
    ensures r.Some? ==> |r.value.1| < |t|
    decreases |t|, 1
  {
    match ReadMember(t)
    case None => None
    case Some((member, u)) =>
      match After('}' as int, u)
      case Some(rest) => Some(([member], rest))
      case None =>
        match After(',' as int, u)
        case None => None
        case Some(v) =>
          match ReadMembers(v)
          case Some((members, rest)) => Some(([member] + members, rest))
          case None => None
  }

  // A name, a colon, a value.
  function ReadMember(t: Bytes): (r: Option<((Bytes, Value), Bytes)>)
    ensures r.Some? ==> |r.value.1| < |t|
    decreases |t|, 0
  {
    match After('"' as int, t)
    case None => None
    case Some(u) =>
      match JsonString.ReadString(u)
      case None => None
      case Some((name, v)) =>
        match After(':' as int, v)
        case None => None
        case Some(w) =>
          match ReadValue(w)
          case Some((value, rest)) => Some(((name, value), rest))
          case None => None
  }

  // A whole text: one value and nothing but whitespace behind it.
  function Read(t: Bytes): Option<Value> {
    match ReadValue(t)
    case Some((v, rest)) => if Skip(rest) == [] then Some(v) else None
    case None => None
  }

  // The value of the first member of that name.
  function Find(members: seq<(Bytes, Value)>, name: Bytes): Option<Value> {
    if members == [] then None
    else if members[0].0 == name then Some(members[0].1)
    else Find(members[1..], name)
  }

  function Lookup(v: Value, name: Bytes): Option<Value> {
    if v.Object? then Find(v.members, name) else None
  }

  // ---------------------------------------------------------------- writing

  // A JSON string with its quotes.
  function Quoted(s: Bytes): Bytes { [34] + (JsonString.Escape(s) + [34]) }

  // json.Marshal for such values: members in order, no whitespace.
  function Write(v: Value): Bytes
    decreases v, 1, 0
  {
    match v
    case Text(s) => Quoted(s)
    case Object(members) => if members == [] then [123, 125] else [123] + WriteFrom(v, 0)
  }

  // The members from the k-th on, and the closing brace.
  function WriteFrom(v: Value, k: nat): Bytes
    requires v.Object? && k < |v.members|
    decreases v, 0, |v.members| - k
  {
    var (name, value) := v.members[k];
    Quoted(name) + ([58] + (Write(value) + (if k + 1 == |v.members| then [125] else [44] + WriteFrom(v, k + 1))))
  }

  // The value as UTF-8 text can carry it.
  function Clean(v: Value): Value
    decreases v, 1, 0
  {
    match v
    case Text(s) => Text(JsonString.Sanitize(s))
    case Object(members) => Object(CleanFrom(v, 0))
  }

  function CleanFrom(v: Value, k: nat): seq<(Bytes, Value)>
    requires v.Object? && k <= |v.members|
    decreases v, 0, |v.members| - k
  {
    if k == |v.members| then []
    else [(JsonString.Sanitize(v.members[k].0), Clean(v.members[k].1))] + CleanFrom(v, k + 1)
  }

  // ------------------------------------------------------- reading what is there

  lemma AfterHere(b: byte, rest: Bytes)
    requires b !in {9, 10, 13, 32}
    ensures After(b, [b] + rest) == Some(rest)
    ensures forall c: byte :: c != b ==> After(c, [b] + rest) == None
  {
    assert Skip([b] + rest) == [b] + rest;
    assert ([b] + rest)[1..] == rest;
  }

  lemma TextReads(s: Bytes, rest: Bytes)
    ensures ReadValue(Quoted(s) + rest) == Some((Text(JsonString.Sanitize(s)), rest))
  {
    AfterHere(34, JsonString.Escape(s) + [34] + rest);
    assert Quoted(s) + rest == [34] + (JsonString.Escape(s) + [34] + rest);
    JsonString.ReadEscape(s, rest);
  }

  lemma MemberReads(name: Bytes, text: Bytes, value: Value, rest: Bytes)
    requires ReadValue(text + rest) == Some((value, rest))
    ensures ReadMember(Quoted(name) + ([58] + (text + rest))) == Some(((JsonString.Sanitize(name), value), rest))
  {
    var tail := [58] + (text + rest);
    AfterHere(34, JsonString.Escape(name) + [34] + tail);
    assert Quoted(name) + tail == [34] + (JsonString.Escape(name) + [34] + tail);
    JsonString.ReadEscape(name, tail);
    AfterHere(58, text + rest);
  }

  // An object whose members are read off t, the last one before its brace.
  lemma ObjectReads(t: Bytes, members: seq<(Bytes, Value)>, rest: Bytes)
    requires t != [] && t[0] == 34 && ReadMembers(t) == Some((members, rest))
    ensures ReadValue([123] + t) == Some((Object(members), rest))
  {
    AfterHere(123, t);
    AfterHere(34, t[1..]);
    assert t == [34] + t[1..];
  }

  lemma LastMember(t: Bytes, member: (Bytes, Value), rest: Bytes)
    requires ReadMember(t) == Some((member, [125] + rest))
    ensures ReadMembers(t) == Some(([member], rest))
  {
    AfterHere(125, rest);
  }

  lemma MoreMembers(t: Bytes, member: (Bytes, Value), u: Bytes, members: seq<(Bytes, Value)>, rest: Bytes)
    requires ReadMember(t) == Some((member, [44] + u)) && ReadMembers(u) == Some((members, rest))
    ensures ReadMembers(t) == Some(([member] + members, rest))
  {
    AfterHere(44, u);
  }

  // Reading gives back what was written, whatever the nesting, the names and
  // the texts, and stops exactly behind it.
  lemma {:induction false} ReadWrite(v: Value, rest: Bytes)
    ensures ReadValue(Write(v) + rest) == Some((Clean(v), rest))
    decreases v, 1, 0
  {
    hide ReadValue, ReadMembers, ReadMember;
    match v
    case Text(s) => TextReads(s, rest);
    case Object(members) =>
      if members == [] {
        EmptyReads(rest);
        assert Write(v) + rest == [123, 125] + rest;
      } else {
        ReadWriteFrom(v, 0, rest);
        StartsQuoted(v, 0, rest);
        ObjectReads(WriteFrom(v, 0) + rest, CleanFrom(v, 0), rest);
        assert Write(v) + rest == [123] + (WriteFrom(v, 0) + rest);
      }
  }

  lemma EmptyReads(rest: Bytes)
    ensures ReadValue([123, 125] + rest) == Some((Object([]), rest))
  {
    AfterHere(123, [125] + rest);
    AfterHere(125, rest);
    assert [123, 125] + rest == [123] + ([125] + rest);
  }

  lemma StartsQuoted(v: Value, k: nat, rest: Bytes)
    requires v.Object? && k < |v.members|
    ensures (WriteFrom(v, k) + rest)[0] == 34
  {
  }

  lemma {:induction false} ReadWriteFrom(v: Value, k: nat, rest: Bytes)
    requires v.Object? && k < |v.members|
    ensures ReadMembers(WriteFrom(v, k) + rest) == Some((CleanFrom(v, k), rest))
    decreases v, 0, |v.members| - k
  {
    hide ReadValue, ReadMembers, ReadMember, Quoted;
    var (name, value) := v.members[k];
    var last := k + 1 == |v.members|;
    var tail := (if last then [125] else [44] + WriteFrom(v, k + 1)) + rest;
    ReadWrite(value, tail);
    MemberReads(name, Write(value), Clean(value), tail);
    var t := Quoted(name) + ([58] + (Write(value) + tail));
    assert WriteFrom(v, k) + rest == t;
    var member := (JsonString.Sanitize(name), Clean(value));
    if last {
      assert CleanFrom(v, k) == [member];
      LastMember(t, member, rest);
    } else {
      ReadWriteFrom(v, k + 1, rest);
      assert tail == [44] + (WriteFrom(v, k + 1) + rest);
      MoreMembers(t, member, WriteFrom(v, k + 1) + rest, CleanFrom(v, k + 1), rest);
    }
  }

  lemma ReadWhole(v: Value)
    ensures Read(Write(v)) == Some(Clean(v))
  {
    ReadWrite(v, []);
    assert Write(v) + [] == Write(v);
  }
}
