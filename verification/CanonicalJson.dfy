/** The canonical form that operation definitions are hashed in, the stable form that params are hashed
    in, and a reader that gives back what a canonical text stands for. */
module CanonicalJson {
  import opened Wrappers
  import opened JsonText

  /** A JavaScript value of JSON data. A number is what it prints as; members come in their own order. */
  datatype Json =
    | Undefined
    | Null
    | Bool(b: bool)
    | Number(digits: Text)
    | String(s: Text)
    | Array(items: seq<Json>)
    | Object(members: seq<Field>)

  datatype Field = Field(key: Text, value: Json)

  /** What a value stands for: members are unordered, undefined ones are not there. */
  datatype Tree =
    | TNull
    | TBool(b: bool)
    | TNumber(digits: Text)
    | TString(s: Text)
    | TArray(items: seq<Tree>)
    | TObject(members: map<Text, Tree>)

  const COMMA: Unit := 0x2c
  const COLON: Unit := 0x3a
  const OPEN_BRACKET: Unit := 0x5b
  const CLOSE_BRACKET: Unit := 0x5d
  const OPEN_BRACE: Unit := 0x7b
  const CLOSE_BRACE: Unit := 0x7d
  const NULL_TEXT: Text := [0x6e, 0x75, 0x6c, 0x6c]
  const TRUE_TEXT: Text := [0x74, 0x72, 0x75, 0x65]
  const FALSE_TEXT: Text := [0x66, 0x61, 0x6c, 0x73, 0x65]
  const UNDEFINED_TEXT: Text := [0x75, 0x6e, 0x64, 0x65, 0x66, 0x69, 0x6e, 0x65, 0x64]

  predicate InNumber(u: Unit) {
    0x30 <= u <= 0x39 || u == 0x2d || u == 0x2b || u == 0x2e || u == 0x65 || u == 0x45
  }

  predicate IsNumber(t: Text) {
    t != [] && (0x30 <= t[0] <= 0x39 || t[0] == 0x2d) && forall i :: 0 <= i < |t| ==> InNumber(t[i])
  }

  ghost predicate DistinctKeys(members: seq<Field>) {
    forall i, j :: 0 <= i < j < |members| ==> members[i].key != members[j].key
  }

  ghost predicate Valid(v: Json) {
    match v
    case Number(digits) => IsNumber(digits)
    case Array(items) => forall i :: 0 <= i < |items| ==> Valid(items[i])
    case Object(members) => DistinctKeys(members) && forall i :: 0 <= i < |members| ==> Valid(members[i].value)
    case _ => true
  }

  // ---------------------------------------------------------------------------------------------
  // The two printed forms
  // ---------------------------------------------------------------------------------------------

  function Inserted(m: (Text, Text), sorted: seq<(Text, Text)>): seq<(Text, Text)> {
    if sorted == [] || Before(m.0, sorted[0].0) then [m] + sorted else [sorted[0]] + Inserted(m, sorted[1..])
  }

  function Sorted(members: seq<(Text, Text)>): seq<(Text, Text)> {
    if members == [] then [] else Inserted(members[0], Sorted(members[1..]))
  }

  function Joined(parts: seq<Text>): Text {
    if parts == [] then []
    else if |parts| == 1 then parts[0]
    else parts[0] + [COMMA] + Joined(parts[1..])
  }

  function Scalar(v: Json): Text
    requires !v.Array? && !v.Object? && !v.Undefined?
  {
    match v
    case Null => NULL_TEXT
    case Bool(b) => if b then TRUE_TEXT else FALSE_TEXT
    case Number(digits) => digits
    case String(s) => Quoted(s)
  }

  /** The members printed each under its key, then sorted by key: the values are printed first, which is
      the same and makes the recursion plain. */
  function Printed(members: seq<Field>): seq<(Text, Text)> {
    if members == [] then []
    else
      match members[0] case Field(key, value) =>
        (if value.Undefined? then [] else [(key, Canonical(value))]) + Printed(members[1..])
  }

  function Member(m: (Text, Text)): Text {
    Quoted(m.0) + [COLON] + m.1
  }

  function Members(printed: seq<(Text, Text)>): seq<Text> {
    seq(|printed|, i requires 0 <= i < |printed| => Member(printed[i]))
  }

  function CanonicalItems(items: seq<Json>): seq<Text> {
    if items == [] then [] else [Canonical(items[0])] + CanonicalItems(items[1..])
  }

  function Canonical(v: Json): Text {
    match v
    case Array(items) => [OPEN_BRACKET] + Joined(CanonicalItems(items)) + [CLOSE_BRACKET]
    case Object(members) => [OPEN_BRACE] + Joined(Members(Sorted(Printed(members)))) + [CLOSE_BRACE]
    case Undefined => NULL_TEXT
    case _ => Scalar(v)
  }

  /** What the other printer makes of a value; None for `undefined`, which prints as nothing in a list and
      as the bare word in a member. */
  function Stable(v: Json): Option<Text> {
    match v
    case Undefined => None
    case Array(items) => Some([OPEN_BRACKET] + Joined(StableItems(items)) + [CLOSE_BRACKET])
    case Object(members) => Some([OPEN_BRACE] + Joined(Members(Sorted(StableMembers(members)))) + [CLOSE_BRACE])
    case _ => Some(Scalar(v))
  }

  function StableItems(items: seq<Json>): seq<Text> {
    if items == [] then []
    else [(match Stable(items[0]) case Some(t) => t case None => [])] + StableItems(items[1..])
  }

  function StableMembers(members: seq<Field>): seq<(Text, Text)> {
    if members == [] then []
    else
      match members[0] case Field(key, value) =>
        [(key, match Stable(value) case Some(t) => t case None => UNDEFINED_TEXT)] + StableMembers(members[1..])
  }

  // ---------------------------------------------------------------------------------------------
  // What a value stands for
  // ---------------------------------------------------------------------------------------------

  function Meaning(v: Json): Tree {
    match v
    case Undefined => TNull
    case Null => TNull
    case Bool(b) => TBool(b)
    case Number(digits) => TNumber(digits)
    case String(s) => TString(s)
    case Array(items) => TArray(Meanings(items))
    case Object(members) => TObject(MeaningOf(members))
  }

  function Meanings(items: seq<Json>): seq<Tree> {
    if items == [] then [] else [Meaning(items[0])] + Meanings(items[1..])
  }

  function MeaningOf(members: seq<Field>): map<Text, Tree> {
    if members == [] then map[]
    else
      var rest := MeaningOf(members[1..]);
      match members[0] case Field(key, value) => if value.Undefined? then rest else rest[key := Meaning(value)]
  }

  // ---------------------------------------------------------------------------------------------
  // Reading a canonical text
  // ---------------------------------------------------------------------------------------------

  function NumberLength(t: Text): (n: nat)
    ensures n <= |t|
  {
    if t != [] && InNumber(t[0]) then 1 + NumberLength(t[1..]) else 0
  }

  function ReadValue(t: Text): (r: Option<Read<Tree>>)
    ensures r.Some? ==> |r.value.rest| < |t|
    decreases |t|, 0
  {
    if t == [] then None
    else if t[0] == QUOTE then
      match ReadString(t[1..]) case None => None case Some(Read(s, rest)) => Some(Read(TString(s), rest))
    else if t[0] == OPEN_BRACKET then
      if |t| > 1 && t[1] == CLOSE_BRACKET then Some(Read(TArray([]), t[2..]))
      else match ReadItems(t[1..]) case None => None case Some(Read(items, rest)) => Some(Read(TArray(items), rest))
    else if t[0] == OPEN_BRACE then
      if |t| > 1 && t[1] == CLOSE_BRACE then Some(Read(TObject(map[]), t[2..]))
      else match ReadMembers(t[1..]) case None => None case Some(Read(members, rest)) => Some(Read(TObject(members), rest))
    else if NULL_TEXT <= t then Some(Read(TNull, t[4..]))
    else if TRUE_TEXT <= t then Some(Read(TBool(true), t[4..]))
    else if FALSE_TEXT <= t then Some(Read(TBool(false), t[5..]))
    else if NumberLength(t) > 0 then Some(Read(TNumber(t[..NumberLength(t)]), t[NumberLength(t)..]))
    else None
  }

  function ReadItems(t: Text): (r: Option<Read<seq<Tree>>>)
    ensures r.Some? ==> |r.value.rest| < |t|
    decreases |t|, 1
  {
    match ReadValue(t)
    case None => None
    case Some(Read(item, rest)) =>
      if rest == [] then None
      else if rest[0] == CLOSE_BRACKET then Some(Read([item], rest[1..]))
      else if rest[0] != COMMA then None
      else match ReadItems(rest[1..]) case None => None case Some(Read(items, after)) => Some(Read([item] + items, after))
  }

  function ReadMembers(t: Text): (r: Option<Read<map<Text, Tree>>>)
    ensures r.Some? ==> |r.value.rest| < |t|
    decreases |t|, 1
  {
    if t == [] || t[0] != QUOTE then None
    else match ReadString(t[1..])
      case None => None
      case Some(Read(key, colon)) =>
        if colon == [] || colon[0] != COLON then None
        else match ReadValue(colon[1..])
          case None => None
          case Some(Read(value, rest)) =>
            if rest == [] then None
            else if rest[0] == CLOSE_BRACE then Some(Read(map[key := value], rest[1..]))
            else if rest[0] != COMMA then None
            else match ReadMembers(rest[1..])
              case None => None
              case Some(Read(members, after)) => Some(Read(members[key := value], after))
  }
}
