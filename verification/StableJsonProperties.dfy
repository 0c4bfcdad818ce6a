/** The two printers compared: the stable form that params are hashed in is the canonical one exactly on
    data without `undefined`. */
module StableJsonProperties {
  import opened Wrappers
  import opened JsonText
  import opened CanonicalJson
  import opened CanonicalJsonProperties

  predicate AllDefined(v: Json) {
    match v
    case Undefined => false
    case Array(items) => forall i :: 0 <= i < |items| ==> AllDefined(items[i])
    case Object(members) => forall i :: 0 <= i < |members| ==> AllDefined(members[i].value)
    case _ => true
  }

  /** On data without `undefined` the two printers agree. */
  lemma {:induction false} StableIsCanonical(v: Json)
    requires AllDefined(v)
    ensures Stable(v) == Some(Canonical(v))
    decreases v, 1
  {
    match v
    case Array(items) => StableItemsAreCanonical(items);
    case Object(members) => StableMembersAreCanonical(members);
    case _ =>
  }

  lemma {:induction false} StableItemsAreCanonical(items: seq<Json>)
    requires forall i :: 0 <= i < |items| ==> AllDefined(items[i])
    ensures StableItems(items) == CanonicalItems(items)
    decreases items, 0
  {
    if items != [] {
      StableIsCanonical(items[0]);
      StableItemsAreCanonical(items[1..]);
    }
  }

  lemma {:induction false} StableMembersAreCanonical(members: seq<Field>)
    requires forall i :: 0 <= i < |members| ==> AllDefined(members[i].value)
    ensures StableMembers(members) == Printed(members)
    decreases members, 0
  {
    if members != [] {
      StableIsCanonical(members[0].value);
      StableMembersAreCanonical(members[1..]);
    }
  }

  /** So params that stand for the same tree hash the same text, and others another. */
  lemma {:induction false} StableIsExactToo(a: Json, b: Json)
    requires Valid(a) && Valid(b) && AllDefined(a) && AllDefined(b)
    ensures Stable(a) == Stable(b) <==> Meaning(a) == Meaning(b)
  {
    StableIsCanonical(a);
    StableIsCanonical(b);
    SameTextIffSameTree(a, b);
  }

  // ---------------------------------------------------------------------------------------------
  // With `undefined` the two texts differ
  // ---------------------------------------------------------------------------------------------

  /** If the two texts of a value agree, with whatever follows them, the value holds no `undefined`, and
      what follows agrees too. */
  ghost predicate Tells(stable: Text, canonical: Text, defined: bool) {
    forall r, s :: Ends(r) && Ends(s) && stable + r == canonical + s ==> defined && r == s
  }

  lemma {:induction false} SameTells(t: Text)
    ensures Tells(t, t, true)
  {
    forall r, s | t + r == t + s ensures r == s {
      assert (t + r)[|t|..] == r && (t + s)[|t|..] == s;
    }
  }

  predicate Closes(end: Text, bracket: Unit) {
    end != [] && end[0] == bracket
  }

  lemma {:induction false} UndefinedItemShows(items: seq<Json>, r: Text, s: Text)
    requires items != [] && items[0].Undefined? && Closes(r, CLOSE_BRACKET)
    ensures Joined(StableItems(items)) + r != Joined(CanonicalItems(items)) + s
  {
    JoinedItems(StableItems(items), r);
    JoinedItems(CanonicalItems(items), s);
    ItemsPrint(items);
    assert |StableItems(items)| == 1 <==> |items| == 1;
    var t, u := Joined(StableItems(items)) + r, Joined(CanonicalItems(items)) + s;
    assert StableItems(items)[0] == [] && CanonicalItems(items)[0] == NULL_TEXT;
    assert t[0] == if |items| == 1 then CLOSE_BRACKET else COMMA;
    assert u[0] == NULL_TEXT[0];
  }

  ghost predicate ItemTells(v: Json) {
    Stable(v).Some? ==> Tells(Stable(v).value, Canonical(v), AllDefined(v))
  }

  lemma {:induction false} ItemsTell(items: seq<Json>, r: Text, s: Text)
    requires forall i :: 0 <= i < |items| ==> ItemTells(items[i])
    requires Closes(r, CLOSE_BRACKET) && Closes(s, CLOSE_BRACKET)
    requires Joined(StableItems(items)) + r == Joined(CanonicalItems(items)) + s
    ensures r == s && forall i :: 0 <= i < |items| ==> AllDefined(items[i])
  {
    if items == [] {
      assert [] + r == r && [] + s == s;
    } else if items[0].Undefined? {
      UndefinedItemShows(items, r, s);
    } else {
      var a, b := StableItems(items), CanonicalItems(items);
      JoinedItems(a, r);
      JoinedItems(b, s);
      FirstTells(items[0], if |items| == 1 then r else [COMMA] + (Joined(a[1..]) + r),
                 if |items| == 1 then s else [COMMA] + (Joined(b[1..]) + s));
      if |items| > 1 {
        assert ([COMMA] + (Joined(a[1..]) + r))[1..] == Joined(a[1..]) + r;
        assert ([COMMA] + (Joined(b[1..]) + s))[1..] == Joined(b[1..]) + s;
        ItemsTell(items[1..], r, s);
      }
    }
  }

  lemma {:induction false} FirstTells(v: Json, r: Text, s: Text)
    requires ItemTells(v) && !v.Undefined? && Ends(r) && Ends(s)
    requires (match Stable(v) case Some(t) => t case None => []) + r == Canonical(v) + s
    ensures AllDefined(v) && r == s
  {
  }

  lemma {:induction false} ArrayTells(items: seq<Json>)
    requires forall i :: 0 <= i < |items| ==> ItemTells(items[i])
    ensures ItemTells(Array(items))
  {
    var a, b := Stable(Array(items)).value, Canonical(Array(items));
    forall r, s | Ends(r) && Ends(s) && a + r == b + s ensures AllDefined(Array(items)) && r == s {
      Bracketed(Joined(StableItems(items)), r);
      Bracketed(Joined(CanonicalItems(items)), s);
      var x, y := Joined(StableItems(items)) + ([CLOSE_BRACKET] + r), Joined(CanonicalItems(items)) + ([CLOSE_BRACKET] + s);
      assert ([OPEN_BRACKET] + x)[1..] == x && ([OPEN_BRACKET] + y)[1..] == y;
      ItemsTell(items, [CLOSE_BRACKET] + r, [CLOSE_BRACKET] + s);
    }
  }

  // ---------------------------------------------------------------------------------------------
  // Members
  // ---------------------------------------------------------------------------------------------

  /** Equal texts start with the same key, and go on alike. */
  lemma {:induction false} SameKey(m: (Text, Text), n: (Text, Text), after: Text, later: Text)
    requires Member(m) + after == Member(n) + later
    ensures m.0 == n.0 && m.1 + after == n.1 + later
  {
    KeyReads(m, after);
    KeyReads(n, later);
    assert ([COLON] + (m.1 + after))[1..] == m.1 + after;
    assert ([COLON] + (n.1 + later))[1..] == n.1 + later;
  }

  ghost predicate KeysTell(a: seq<(Text, Text)>, b: seq<(Text, Text)>, defined: set<Text>) {
    && Ascending(a) && Ascending(b)
    && (forall j :: 0 <= j < |b| ==> Has(a, b[j].0))
    && (forall i, j :: 0 <= i < |a| && 0 <= j < |b| && a[i].0 == b[j].0 ==> Tells(a[i].1, b[j].1, a[i].0 in defined))
  }

  lemma {:induction false} TailTells(a: seq<(Text, Text)>, b: seq<(Text, Text)>, defined: set<Text>)
    requires KeysTell(a, b, defined) && a != [] && b != [] && a[0].0 == b[0].0
    ensures KeysTell(a[1..], b[1..], defined)
  {
    HasTail(a);
    forall j | 0 <= j < |b[1..]| ensures Has(a[1..], b[1..][j].0) {
      assert Has(a, b[j + 1].0);
      BeforeIsStrict(b[0].0, b[j + 1].0);
    }
  }

  /** What follows the first member. */
  function AfterFirst(members: seq<(Text, Text)>, end: Text): Text
    requires members != []
  {
    if |members| == 1 then end else [COMMA] + (Joined(Members(members[1..])) + end)
  }

  lemma {:induction false} NoMembersLeft(a: seq<(Text, Text)>, r: Text, s: Text)
    requires a != [] && Closes(s, CLOSE_BRACE)
    ensures Joined(Members(a)) + r != s
  {
    JoinedMembers(a, r);
    KeyReads(a[0], AfterFirst(a, r));
    assert (Joined(Members(a)) + r)[0] == QUOTE;
  }

  lemma {:induction false} MembersTell(a: seq<(Text, Text)>, b: seq<(Text, Text)>, defined: set<Text>, r: Text, s: Text)
    requires KeysTell(a, b, defined) && Closes(r, CLOSE_BRACE) && Closes(s, CLOSE_BRACE)
    requires Joined(Members(a)) + r == Joined(Members(b)) + s
    ensures r == s && forall i :: 0 <= i < |a| ==> a[i].0 in defined && Has(b, a[i].0)
  {
    if b == [] {
      assert Joined(Members(b)) + s == s;
      if a != [] {
        NoMembersLeft(a, r, s);
      } else {
        assert Joined(Members(a)) + r == r;
      }
    } else {
      assert Has(a, b[0].0);
      JoinedMembers(a, r);
      JoinedMembers(b, s);
      SameKey(a[0], b[0], AfterFirst(a, r), AfterFirst(b, s));
      assert Tells(a[0].1, b[0].1, a[0].0 in defined);
      assert AfterFirst(a, r) == AfterFirst(b, s);
      assert |a| > 1 <==> |b| > 1;
      HasTail(b);
      if |a| > 1 {
        assert ([COMMA] + (Joined(Members(a[1..])) + r))[1..] == Joined(Members(a[1..])) + r;
        assert ([COMMA] + (Joined(Members(b[1..])) + s))[1..] == Joined(Members(b[1..])) + s;
        TailTells(a, b, defined);
        MembersTell(a[1..], b[1..], defined, r, s);
        forall i | 0 <= i < |a| ensures a[i].0 in defined && Has(b, a[i].0) {
          if i > 0 { assert a[i] == a[1..][i - 1]; }
        }
      }
    }
  }

  function StableMember(f: Field): (Text, Text) {
    (f.key, match Stable(f.value) case Some(t) => t case None => UNDEFINED_TEXT)
  }

  lemma {:induction false} StableMembersHave(members: seq<Field>)
    ensures |StableMembers(members)| == |members|
    ensures forall i :: 0 <= i < |members| ==> StableMembers(members)[i] == StableMember(members[i])
  {
    if members != [] { StableMembersHave(members[1..]); }
  }

  function DefinedKeys(members: seq<Field>): set<Text> {
    set i | 0 <= i < |members| && AllDefined(members[i].value) :: members[i].key
  }

  predicate FromField(members: seq<Field>, k: nat, p: (Text, Text)) {
    k < |members| && !members[k].value.Undefined? && p == (members[k].key, Canonical(members[k].value))
  }

  lemma {:induction false} PrintedFrom(members: seq<Field>, p: (Text, Text)) returns (k: nat)
    requires DistinctKeys(members) && p in Sorted(Printed(members))
    ensures FromField(members, k, p)
  {
    PrintedIsDistinct(members);
    SortedIsAscending(Printed(members));
    PrintedHas(members);
    k :| 0 <= k < |members| && !members[k].value.Undefined? && p == (members[k].key, Canonical(members[k].value));
  }

  lemma {:induction false} StableFrom(members: seq<Field>, p: (Text, Text)) returns (k: nat)
    requires DistinctKeys(members) && p in Sorted(StableMembers(members))
    ensures k < |members| && p == StableMember(members[k])
  {
    StableMembersHave(members);
    SortedIsAscending(StableMembers(members));
    k :| k < |members| && StableMembers(members)[k] == p;
  }

  lemma {:induction false} StableHas(members: seq<Field>, k: nat)
    requires DistinctKeys(members) && k < |members|
    ensures Has(Sorted(StableMembers(members)), members[k].key)
  {
    StableMembersHave(members);
    SortedIsAscending(StableMembers(members));
    assert StableMembers(members)[k] in Sorted(StableMembers(members));
  }

  lemma {:induction false} BothAscend(members: seq<Field>)
    requires DistinctKeys(members)
    ensures Ascending(Sorted(StableMembers(members))) && Ascending(Sorted(Printed(members)))
  {
    StableMembersHave(members);
    SortedIsAscending(StableMembers(members));
    PrintedIsDistinct(members);
    SortedIsAscending(Printed(members));
  }

  lemma {:induction false} SortedTell(members: seq<Field>)
    requires DistinctKeys(members) && forall i :: 0 <= i < |members| ==> ItemTells(members[i].value)
    ensures KeysTell(Sorted(StableMembers(members)), Sorted(Printed(members)), DefinedKeys(members))
  {
    var a, b := Sorted(StableMembers(members)), Sorted(Printed(members));
    BothAscend(members);
    forall j | 0 <= j < |b| ensures Has(a, b[j].0) {
      var k := PrintedFrom(members, b[j]);
      StableHas(members, k);
    }
    forall i, j | 0 <= i < |a| && 0 <= j < |b| && a[i].0 == b[j].0
      ensures Tells(a[i].1, b[j].1, a[i].0 in DefinedKeys(members))
    {
      var h := StableFrom(members, a[i]);
      var k := PrintedFrom(members, b[j]);
      DefinedKey(members, k);
      assert h == k && ItemTells(members[k].value);
    }
  }

  lemma {:induction false} DefinedKey(members: seq<Field>, k: nat)
    requires DistinctKeys(members) && k < |members|
    ensures members[k].key in DefinedKeys(members) <==> AllDefined(members[k].value)
  {
  }

  /** Every member, undefined or not, is in the stable listing. */
  lemma {:induction false} AllMembersDefined(members: seq<Field>, a: seq<(Text, Text)>)
    requires DistinctKeys(members) && a == Sorted(StableMembers(members))
    requires forall i :: 0 <= i < |a| ==> a[i].0 in DefinedKeys(members)
    ensures AllDefined(Object(members))
  {
    forall k | 0 <= k < |members| ensures AllDefined(members[k].value) {
      StableHas(members, k);
      var i :| 0 <= i < |a| && a[i].0 == members[k].key;
      assert a[i].0 in DefinedKeys(members);
      DefinedKey(members, k);
    }
  }

  lemma {:induction false} ObjectTells(members: seq<Field>)
    requires DistinctKeys(members) && forall i :: 0 <= i < |members| ==> ItemTells(members[i].value)
    ensures ItemTells(Object(members))
  {
    var a, b := Sorted(StableMembers(members)), Sorted(Printed(members));
    SortedTell(members);
    forall r, s | Ends(r) && Ends(s) && Stable(Object(members)).value + r == Canonical(Object(members)) + s
      ensures AllDefined(Object(members)) && r == s
    {
      Enclosed(Joined(Members(a)), r);
      Enclosed(Joined(Members(b)), s);
      var x, y := Joined(Members(a)) + ([CLOSE_BRACE] + r), Joined(Members(b)) + ([CLOSE_BRACE] + s);
      assert ([OPEN_BRACE] + x)[1..] == x && ([OPEN_BRACE] + y)[1..] == y;
      MembersTell(a, b, DefinedKeys(members), [CLOSE_BRACE] + r, [CLOSE_BRACE] + s);
      AllMembersDefined(members, a);
    }
  }

  lemma {:induction false} ValueTells(v: Json)
    requires Valid(v)
    ensures ItemTells(v)
    decreases v
  {
    match v
    case Array(items) =>
      forall i | 0 <= i < |items| ensures ItemTells(items[i]) { ValueTells(items[i]); }
      ArrayTells(items);
    case Object(members) =>
      forall i | 0 <= i < |members| ensures ItemTells(members[i].value) { ValueTells(members[i].value); }
      ObjectTells(members);
    case Undefined =>
    case _ => SameTells(Scalar(v));
  }

  /** The two printers agree on a value if and only if it holds no `undefined`, at any depth. */
  lemma {:induction false} StableIsCanonicalIff(v: Json)
    requires Valid(v)
    ensures Stable(v) == Some(Canonical(v)) <==> AllDefined(v)
  {
    if AllDefined(v) {
      StableIsCanonical(v);
    }
    ValueTells(v);
    assert Ends([]) && Canonical(v) + [] == Canonical(v);
  }
}
