/** Two values have the same canonical text exactly when they stand for the same tree. */
module CanonicalJsonProperties {
  import opened Wrappers
  import opened JsonText
  import opened CanonicalJson

  // ---------------------------------------------------------------------------------------------
  // Sorting
  // ---------------------------------------------------------------------------------------------

  ghost predicate Ascending(s: seq<(Text, Text)>) {
    forall i, j :: 0 <= i < j < |s| ==> Before(s[i].0, s[j].0)
  }

  predicate Has(s: seq<(Text, Text)>, key: Text) {
    exists i :: 0 <= i < |s| && s[i].0 == key
  }

  ghost predicate Distinct(s: seq<(Text, Text)>) {
    forall i, j :: 0 <= i < j < |s| ==> s[i].0 != s[j].0
  }

  lemma {:induction false} InsertedIsAscending(m: (Text, Text), s: seq<(Text, Text)>)
    requires Ascending(s) && !Has(s, m.0)
    ensures Ascending(Inserted(m, s))
    ensures forall p :: p in Inserted(m, s) <==> p == m || p in s
  {
    if s != [] {
      assert s == [s[0]] + s[1..];
      if Before(m.0, s[0].0) {
        forall j | 0 <= j < |s| ensures Before(m.0, s[j].0) {
          if j > 0 { BeforeIsTransitive(m.0, s[0].0, s[j].0); }
        }
      } else {
        BeforeIsTotal(m.0, s[0].0);
        assert forall i :: 0 <= i < |s[1..]| ==> s[1..][i] == s[i + 1];
        InsertedIsAscending(m, s[1..]);
        var rest := Inserted(m, s[1..]);
        forall j | 0 <= j < |rest| ensures Before(s[0].0, rest[j].0) {
          assert rest[j] in rest;
        }
      }
    }
  }

  lemma {:induction false} SortedIsAscending(s: seq<(Text, Text)>)
    requires Distinct(s)
    ensures Ascending(Sorted(s))
    ensures forall p :: p in Sorted(s) <==> p in s
  {
    if s != [] {
      assert s == [s[0]] + s[1..];
      SortedIsAscending(s[1..]);
      var sorted := Sorted(s[1..]);
      forall i | 0 <= i < |sorted| ensures sorted[i].0 != s[0].0 {
        assert sorted[i] in s[1..];
      }
      InsertedIsAscending(s[0], Sorted(s[1..]));
    }
  }

  /** An ascending listing is determined by what is in it. */
  lemma {:induction false} AscendingIsUnique(a: seq<(Text, Text)>, b: seq<(Text, Text)>)
    requires Ascending(a) && Ascending(b)
    requires forall p :: p in a <==> p in b
    ensures a == b
  {
    assert a != [] ==> a[0] in b;
    assert b != [] ==> b[0] in a;
    if a != [] {
      var i :| 0 <= i < |b| && b[i] == a[0];
      var j :| 0 <= j < |a| && a[j] == b[0];
      if i > 0 {
        assert Before(b[0].0, a[0].0);
        if j > 0 { BeforeIsStrict(a[0].0, b[0].0); } else { BeforeIsStrict(b[0].0, a[0].0); }
      }
      assert a[0] == b[0];
      TailsAgree(a, b);
      AscendingIsUnique(a[1..], b[1..]);
    }
  }

  lemma TailsAgree(a: seq<(Text, Text)>, b: seq<(Text, Text)>)
    requires a != [] && b != [] && a[0] == b[0] && Ascending(a) && Ascending(b)
    requires forall p :: p in a <==> p in b
    ensures forall p :: p in a[1..] <==> p in b[1..]
  {
    TailIsTheRest(a);
    TailIsTheRest(b);
  }

  lemma TailIsTheRest(a: seq<(Text, Text)>)
    requires a != [] && Ascending(a)
    ensures forall p :: p in a[1..] <==> p in a && p != a[0]
  {
    forall i | 1 <= i < |a| ensures a[i] != a[0] {
      BeforeIsStrict(a[0].0, a[i].0);
    }
    assert a == [a[0]] + a[1..];
  }

  // ---------------------------------------------------------------------------------------------
  // Reading back what was printed
  // ---------------------------------------------------------------------------------------------

  /** What may stand after a value. */
  predicate Ends(rest: Text) {
    rest == [] || rest[0] == COMMA || rest[0] == CLOSE_BRACKET || rest[0] == CLOSE_BRACE
  }

  ghost predicate Reads(text: Text, tree: Tree) {
    forall rest :: Ends(rest) ==> ReadValue(text + rest) == Some(Read(tree, rest))
  }

  lemma {:induction false} NumberEnds(digits: Text, rest: Text)
    requires (forall i :: 0 <= i < |digits| ==> InNumber(digits[i])) && Ends(rest)
    ensures NumberLength(digits + rest) == |digits|
  {
    if digits == [] {
      assert digits + rest == rest;
    } else {
      assert (digits + rest)[1..] == digits[1..] + rest;
      NumberEnds(digits[1..], rest);
    }
  }

  lemma WordReads(rest: Text)
    ensures ReadValue(NULL_TEXT + rest) == Some(Read(TNull, rest))
    ensures ReadValue(TRUE_TEXT + rest) == Some(Read(TBool(true), rest))
  {
    var n, t := NULL_TEXT + rest, TRUE_TEXT + rest;
    assert n[..4] == NULL_TEXT && n[4..] == rest;
    assert t[..4] == TRUE_TEXT && t[4..] == rest;
  }

  lemma FalseReads(rest: Text)
    ensures ReadValue(FALSE_TEXT + rest) == Some(Read(TBool(false), rest))
  {
    var f := FALSE_TEXT + rest;
    assert f[..5] == FALSE_TEXT && f[5..] == rest;
  }

  lemma QuotedReads(s: Text, rest: Text)
    ensures ReadValue(Quoted(s) + rest) == Some(Read(TString(s), rest))
  {
    StringRoundTrip(s, rest);
    assert (Quoted(s) + rest)[1..] == Escaped(s) + [QUOTE] + rest;
  }

  lemma ScalarReads(v: Json)
    requires Valid(v) && !v.Array? && !v.Object? && !v.Undefined?
    ensures Reads(Scalar(v), Meaning(v))
  {
    forall rest | Ends(rest) ensures ReadValue(Scalar(v) + rest) == Some(Read(Meaning(v), rest)) {
      match v
      case Null => WordReads(rest);
      case Bool(b) => WordReads(rest); FalseReads(rest);
      case Number(digits) => NumberReads(digits, rest);
      case String(s) => QuotedReads(s, rest);
    }
  }

  lemma NumberReads(digits: Text, rest: Text)
    requires IsNumber(digits) && Ends(rest)
    ensures ReadValue(digits + rest) == Some(Read(TNumber(digits), rest))
  {
    var t := digits + rest;
    NumberEnds(digits, rest);
    assert t[0] == digits[0];
    assert t[..|digits|] == digits && t[|digits|..] == rest;
  }

  predicate Opens(t: Text) {
    t != [] && t[0] != CLOSE_BRACKET && t[0] != CLOSE_BRACE && t[0] != COMMA
  }

  lemma CanonicalOpens(v: Json)
    requires Valid(v)
    ensures Opens(Canonical(v))
  {
  }

  lemma JoinedItems(texts: seq<Text>, end: Text)
    requires texts != []
    ensures Joined(texts) + end
            == texts[0] + (if |texts| == 1 then end else [COMMA] + (Joined(texts[1..]) + end))
  {
  }

  function ItemThen(tree: Tree, after: Text): Option<Read<seq<Tree>>>
    requires after != []
  {
    if after[0] == CLOSE_BRACKET then Some(Read([tree], after[1..]))
    else if after[0] != COMMA then None
    else match ReadItems(after[1..])
      case None => None
      case Some(Read(items, rest)) => Some(Read([tree] + items, rest))
  }

  lemma ItemReads(text: Text, tree: Tree, after: Text)
    requires Reads(text, tree) && Ends(after) && after != []
    ensures ReadItems(text + after) == ItemThen(tree, after)
  {
    assert ReadValue(text + after) == Some(Read(tree, after));
  }

  ghost predicate AllRead(texts: seq<Text>, trees: seq<Tree>) {
    |texts| == |trees| && forall i :: 0 <= i < |texts| ==> Reads(texts[i], trees[i])
  }

  lemma {:induction false} ItemsRead(texts: seq<Text>, trees: seq<Tree>, end: Text)
    requires AllRead(texts, trees) && texts != [] && end != [] && end[0] == CLOSE_BRACKET
    ensures ReadItems(Joined(texts) + end) == Some(Read(trees, end[1..]))
  {
    JoinedItems(texts, end);
    if |texts| == 1 {
      ItemReads(texts[0], trees[0], end);
      assert trees == [trees[0]];
    } else {
      var later := Joined(texts[1..]) + end;
      ItemReads(texts[0], trees[0], [COMMA] + later);
      assert ([COMMA] + later)[1..] == later;
      ItemsRead(texts[1..], trees[1..], end);
      assert trees == [trees[0]] + trees[1..];
    }
  }

  lemma ArrayReads(texts: seq<Text>, trees: seq<Tree>)
    requires AllRead(texts, trees)
    requires texts != [] ==> Opens(texts[0])
    ensures Reads([OPEN_BRACKET] + Joined(texts) + [CLOSE_BRACKET], TArray(trees))
  {
    var text := [OPEN_BRACKET] + Joined(texts) + [CLOSE_BRACKET];
    forall rest | Ends(rest) ensures ReadValue(text + rest) == Some(Read(TArray(trees), rest)) {
      if texts == [] {
        EmptyArrayReads(rest);
        assert text == [OPEN_BRACKET, CLOSE_BRACKET];
        assert trees == [];
      } else {
        FullArrayReads(texts, trees, [CLOSE_BRACKET] + rest);
        Bracketed(Joined(texts), rest);
      }
    }
  }

  lemma Bracketed(inner: Text, rest: Text)
    ensures [OPEN_BRACKET] + inner + [CLOSE_BRACKET] + rest == [OPEN_BRACKET] + (inner + ([CLOSE_BRACKET] + rest))
    ensures ([CLOSE_BRACKET] + rest)[1..] == rest
  {
  }

  lemma EmptyArrayReads(rest: Text)
    ensures ReadValue([OPEN_BRACKET, CLOSE_BRACKET] + rest) == Some(Read(TArray([]), rest))
  {
    assert ([OPEN_BRACKET, CLOSE_BRACKET] + rest)[2..] == rest;
  }

  lemma FullArrayReads(texts: seq<Text>, trees: seq<Tree>, end: Text)
    requires AllRead(texts, trees) && texts != [] && Opens(texts[0]) && end != [] && end[0] == CLOSE_BRACKET
    ensures ReadValue([OPEN_BRACKET] + (Joined(texts) + end)) == Some(Read(TArray(trees), end[1..]))
  {
    var inside := Joined(texts) + end;
    JoinedItems(texts, end);
    assert inside[0] == texts[0][0];
    ItemsRead(texts, trees, end);
    assert ([OPEN_BRACKET] + inside)[1..] == inside;
  }

  /** One member and what follows it. */
  lemma KeyReads(m: (Text, Text), after: Text)
    ensures var t := Member(m) + after;
            t != [] && t[0] == QUOTE && ReadString(t[1..]) == Some(Read(m.0, [COLON] + (m.1 + after)))
  {
    var colon := [COLON] + (m.1 + after);
    StringRoundTrip(m.0, colon);
    Regrouped(Escaped(m.0), m.1, after);
    assert Member(m) + after == [QUOTE] + (Escaped(m.0) + [QUOTE] + colon);
  }

  lemma Regrouped(key: Text, value: Text, after: Text)
    ensures [QUOTE] + key + [QUOTE] + [COLON] + value + after == [QUOTE] + (key + [QUOTE] + ([COLON] + (value + after)))
  {
  }

  function Continued(key: Text, value: Tree, after: Text): Option<Read<map<Text, Tree>>>
    requires after != []
  {
    if after[0] == CLOSE_BRACE then Some(Read(map[key := value], after[1..]))
    else if after[0] != COMMA then None
    else match ReadMembers(after[1..])
      case None => None
      case Some(Read(members, rest)) => Some(Read(members[key := value], rest))
  }

  lemma MemberReads(m: (Text, Text), tree: Tree, after: Text)
    requires Reads(m.1, tree) && Ends(after) && after != []
    ensures ReadMembers(Member(m) + after) == Continued(m.0, tree, after)
  {
    KeyReads(m, after);
    assert ([COLON] + (m.1 + after))[1..] == m.1 + after;
    assert ReadValue(m.1 + after) == Some(Read(tree, after));
  }

  ghost predicate IsMapOf(printed: seq<(Text, Text)>, trees: map<Text, Tree>, members: map<Text, Tree>) {
    && (forall key :: key in members <==> Has(printed, key))
    && (forall key :: key in members ==> key in trees && members[key] == trees[key])
  }

  lemma JoinedMembers(printed: seq<(Text, Text)>, end: Text)
    requires printed != []
    ensures Joined(Members(printed)) + end
            == Member(printed[0]) + (if |printed| == 1 then end else [COMMA] + (Joined(Members(printed[1..])) + end))
  {
    assert Members(printed)[0] == Member(printed[0]);
    assert Members(printed)[1..] == Members(printed[1..]);
  }

  lemma {:induction false} MembersRead(printed: seq<(Text, Text)>, trees: map<Text, Tree>, end: Text)
    requires printed != [] && end != [] && end[0] == CLOSE_BRACE
    requires forall i :: 0 <= i < |printed| ==> printed[i].0 in trees && Reads(printed[i].1, trees[printed[i].0])
    ensures var r := ReadMembers(Joined(Members(printed)) + end);
            r.Some? && r.value.rest == end[1..] && IsMapOf(printed, trees, r.value.value)
  {
    var key := printed[0].0;
    JoinedMembers(printed, end);
    if |printed| == 1 {
      MemberReads(printed[0], trees[key], end);
    } else {
      var others := printed[1..];
      var later := Joined(Members(others)) + end;
      MemberReads(printed[0], trees[key], [COMMA] + later);
      assert ([COMMA] + later)[1..] == later;
      MembersRead(others, trees, end);
      OneMoreMember(printed, trees, ReadMembers(later).value.value);
    }
  }

  lemma OneMoreMember(printed: seq<(Text, Text)>, trees: map<Text, Tree>, members: map<Text, Tree>)
    requires printed != [] && printed[0].0 in trees && IsMapOf(printed[1..], trees, members)
    ensures IsMapOf(printed, trees, members[printed[0].0 := trees[printed[0].0]])
  {
    HasTail(printed);
  }

  lemma HasTail(printed: seq<(Text, Text)>)
    requires printed != []
    ensures forall k :: Has(printed, k) <==> k == printed[0].0 || Has(printed[1..], k)
  {
    forall k ensures Has(printed, k) <==> k == printed[0].0 || Has(printed[1..], k) {
      if Has(printed, k) && k != printed[0].0 {
        var i :| 0 <= i < |printed| && printed[i].0 == k;
        assert printed[1..][i - 1].0 == k;
      } else if Has(printed[1..], k) {
        var i :| 0 <= i < |printed[1..]| && printed[1..][i].0 == k;
        assert printed[i + 1].0 == k;
      }
    }
  }

  lemma ObjectReads(printed: seq<(Text, Text)>, trees: map<Text, Tree>)
    requires forall i :: 0 <= i < |printed| ==> printed[i].0 in trees && Reads(printed[i].1, trees[printed[i].0])
    requires forall key :: key in trees ==> Has(printed, key)
    ensures Reads([OPEN_BRACE] + Joined(Members(printed)) + [CLOSE_BRACE], TObject(trees))
  {
    var text := [OPEN_BRACE] + Joined(Members(printed)) + [CLOSE_BRACE];
    forall rest | Ends(rest) ensures ReadValue(text + rest) == Some(Read(TObject(trees), rest)) {
      if printed == [] {
        EmptyObjectReads(rest);
        assert text == [OPEN_BRACE, CLOSE_BRACE];
        assert trees == map[];
      } else {
        FullObjectReads(printed, trees, [CLOSE_BRACE] + rest);
        Enclosed(Joined(Members(printed)), rest);
      }
    }
  }

  lemma Enclosed(inner: Text, rest: Text)
    ensures [OPEN_BRACE] + inner + [CLOSE_BRACE] + rest == [OPEN_BRACE] + (inner + ([CLOSE_BRACE] + rest))
    ensures ([CLOSE_BRACE] + rest)[1..] == rest
  {
  }

  lemma EmptyObjectReads(rest: Text)
    ensures ReadValue([OPEN_BRACE, CLOSE_BRACE] + rest) == Some(Read(TObject(map[]), rest))
  {
    assert ([OPEN_BRACE, CLOSE_BRACE] + rest)[2..] == rest;
  }

  lemma FullObjectReads(printed: seq<(Text, Text)>, trees: map<Text, Tree>, end: Text)
    requires printed != [] && end != [] && end[0] == CLOSE_BRACE
    requires forall i :: 0 <= i < |printed| ==> printed[i].0 in trees && Reads(printed[i].1, trees[printed[i].0])
    requires forall key :: key in trees ==> Has(printed, key)
    ensures ReadValue([OPEN_BRACE] + (Joined(Members(printed)) + end)) == Some(Read(TObject(trees), end[1..]))
  {
    var inside := Joined(Members(printed)) + end;
    JoinedMembers(printed, end);
    assert inside[0] == Member(printed[0])[0] == QUOTE;
    MembersRead(printed, trees, end);
    assert ReadMembers(inside).value.value == trees;
    assert ([OPEN_BRACE] + inside)[1..] == inside;
  }

  /** The printed members are those of the meaning, key by key. */
  ghost predicate PrintsAs(printed: seq<(Text, Text)>, trees: map<Text, Tree>) {
    && (forall i :: 0 <= i < |printed| ==> printed[i].0 in trees && Reads(printed[i].1, trees[printed[i].0]))
    && (forall key :: key in trees ==> Has(printed, key))
    && Distinct(printed)
  }

  lemma {:induction false} PrintedPrints(members: seq<Field>)
    requires DistinctKeys(members)
    requires forall i :: 0 <= i < |members| ==> Reads(Canonical(members[i].value), Meaning(members[i].value))
    ensures PrintsAs(Printed(members), MeaningOf(members))
    ensures forall key :: Has(Printed(members), key) ==> exists i :: 0 <= i < |members| && members[i].key == key
  {
    if members != [] {
      var rest := members[1..];
      assert forall i :: 0 <= i < |rest| ==> rest[i] == members[i + 1];
      PrintedPrints(rest);
      var printed := Printed(members);
      if members[0].value.Undefined? {
        assert printed == Printed(rest);
      } else {
        var first := (members[0].key, Canonical(members[0].value));
        assert printed == [first] + Printed(rest) && printed[1..] == Printed(rest);
        HasTail(printed);
        forall i | 0 <= i < |Printed(rest)| ensures Printed(rest)[i].0 != first.0 {
          assert Has(Printed(rest), Printed(rest)[i].0);
        }
      }
    }
  }

  lemma SortingKeepsPrinting(printed: seq<(Text, Text)>, trees: map<Text, Tree>)
    requires PrintsAs(printed, trees)
    ensures forall i :: 0 <= i < |Sorted(printed)| ==>
              Sorted(printed)[i].0 in trees && Reads(Sorted(printed)[i].1, trees[Sorted(printed)[i].0])
    ensures forall key :: key in trees ==> Has(Sorted(printed), key)
  {
    SortedIsAscending(printed);
    forall i | 0 <= i < |Sorted(printed)|
      ensures Sorted(printed)[i].0 in trees && Reads(Sorted(printed)[i].1, trees[Sorted(printed)[i].0])
    {
      assert Sorted(printed)[i] in printed;
    }
    forall key | key in trees ensures Has(Sorted(printed), key) {
      var i :| 0 <= i < |printed| && printed[i].0 == key;
      assert printed[i] in Sorted(printed);
    }
  }

  lemma {:induction false} ItemsPrint(items: seq<Json>)
    ensures |CanonicalItems(items)| == |Meanings(items)| == |items|
    ensures forall i :: 0 <= i < |items| ==> CanonicalItems(items)[i] == Canonical(items[i]) && Meanings(items)[i] == Meaning(items[i])
  {
    if items != [] { ItemsPrint(items[1..]); }
  }

  /** Whatever is printed reads back as what it stands for, whatever follows it. */
  lemma {:induction false} CanonicalReads(v: Json)
    requires Valid(v)
    ensures Reads(Canonical(v), Meaning(v))
    decreases v
  {
    match v
    case Array(items) =>
      ItemsPrint(items);
      forall i | 0 <= i < |items| ensures Reads(CanonicalItems(items)[i], Meanings(items)[i]) {
        CanonicalReads(items[i]);
      }
      if items != [] { CanonicalOpens(items[0]); }
      ArrayReads(CanonicalItems(items), Meanings(items));
    case Object(members) =>
      forall i | 0 <= i < |members| ensures Reads(Canonical(members[i].value), Meaning(members[i].value)) {
        CanonicalReads(members[i].value);
      }
      PrintedPrints(members);
      SortingKeepsPrinting(Printed(members), MeaningOf(members));
      ObjectReads(Sorted(Printed(members)), MeaningOf(members));
    case Undefined => ScalarReads(Null);
    case _ => ScalarReads(v);
  }

  // ---------------------------------------------------------------------------------------------
  // The same tree prints the same
  // ---------------------------------------------------------------------------------------------

  lemma {:induction false} MeaningOfField(members: seq<Field>, i: nat)
    requires DistinctKeys(members) && i < |members|
    ensures !members[i].value.Undefined? ==> members[i].key in MeaningOf(members)
                                             && MeaningOf(members)[members[i].key] == Meaning(members[i].value)
    ensures members[i].value.Undefined? ==> members[i].key !in MeaningOf(members)
  {
    var rest := members[1..];
    assert forall k :: 0 <= k < |rest| ==> rest[k] == members[k + 1];
    if i > 0 {
      MeaningOfField(rest, i - 1);
    } else {
      MeaningOfKeys(rest, members[0].key);
    }
  }

  lemma {:induction false} MeaningOfKeys(members: seq<Field>, key: Text)
    ensures key in MeaningOf(members) ==> exists i :: 0 <= i < |members| && members[i].key == key && !members[i].value.Undefined?
  {
    if members != [] && key in MeaningOf(members) {
      if members[0].key == key && !members[0].value.Undefined? {
        assert 0 <= 0 < |members|;
      } else {
        MeaningOfKeys(members[1..], key);
        var i :| 0 <= i < |members[1..]| && members[1..][i].key == key && !members[1..][i].value.Undefined?;
        assert members[i + 1].key == key;
      }
    }
  }

  lemma {:induction false} PrintedHas(members: seq<Field>)
    ensures forall p :: p in Printed(members) <==>
              exists i :: 0 <= i < |members| && !members[i].value.Undefined? && p == (members[i].key, Canonical(members[i].value))
  {
    if members != [] {
      var rest := members[1..];
      PrintedHas(rest);
      forall p ensures p in Printed(members) <==>
                       exists i :: 0 <= i < |members| && !members[i].value.Undefined? && p == (members[i].key, Canonical(members[i].value))
      {
        if p in Printed(rest) {
          var i :| 0 <= i < |rest| && !rest[i].value.Undefined? && p == (rest[i].key, Canonical(rest[i].value));
          assert members[i + 1] == rest[i];
        }
        if exists i :: 0 <= i < |members| && !members[i].value.Undefined? && p == (members[i].key, Canonical(members[i].value)) {
          var i :| 0 <= i < |members| && !members[i].value.Undefined? && p == (members[i].key, Canonical(members[i].value));
          if i > 0 { assert rest[i - 1] == members[i]; }
        }
      }
    }
  }

  /** Equal values under equal keys print as equal members. */
  lemma SameMembers(a: seq<Field>, b: seq<Field>, p: (Text, Text))
    requires DistinctKeys(a) && DistinctKeys(b) && MeaningOf(a) == MeaningOf(b)
    requires SameWhereMeantSame(a, b)
    requires p in Printed(a)
    ensures p in Printed(b)
  {
    PrintedHas(a);
    PrintedHas(b);
    var i :| 0 <= i < |a| && !a[i].value.Undefined? && p == (a[i].key, Canonical(a[i].value));
    MeaningOfField(a, i);
    MeaningOfKeys(b, a[i].key);
    var j :| 0 <= j < |b| && b[j].key == a[i].key && !b[j].value.Undefined?;
    MeaningOfField(b, j);
    assert p == (b[j].key, Canonical(b[j].value));
  }

  ghost predicate SameWhereMeantSame(a: seq<Field>, b: seq<Field>) {
    forall i, j :: 0 <= i < |a| && 0 <= j < |b| && Meaning(a[i].value) == Meaning(b[j].value)
                   ==> Canonical(a[i].value) == Canonical(b[j].value)
  }

  lemma SameObjects(a: seq<Field>, b: seq<Field>)
    requires DistinctKeys(a) && DistinctKeys(b) && MeaningOf(a) == MeaningOf(b)
    requires Distinct(Printed(a)) && Distinct(Printed(b))
    requires SameWhereMeantSame(a, b) && SameWhereMeantSame(b, a)
    ensures Sorted(Printed(a)) == Sorted(Printed(b))
  {
    forall p ensures p in Printed(a) <==> p in Printed(b) {
      if p in Printed(a) { SameMembers(a, b, p); }
      if p in Printed(b) { SameMembers(b, a, p); }
    }
    SameSorted(Printed(a), Printed(b));
  }

  lemma SameSorted(a: seq<(Text, Text)>, b: seq<(Text, Text)>)
    requires Distinct(a) && Distinct(b) && forall p :: p in a <==> p in b
    ensures Sorted(a) == Sorted(b)
  {
    SortedIsAscending(a);
    SortedIsAscending(b);
    AscendingIsUnique(Sorted(a), Sorted(b));
  }

  lemma {:induction false} SameTreeSameText(a: Json, b: Json)
    requires Valid(a) && Valid(b) && Meaning(a) == Meaning(b)
    ensures Canonical(a) == Canonical(b)
    decreases a
  {
    match a
    case Array(items) =>
      ItemsPrint(items);
      ItemsPrint(b.items);
      forall i | 0 <= i < |items| ensures Canonical(items[i]) == Canonical(b.items[i]) {
        assert Meanings(items)[i] == Meanings(b.items)[i];
        SameTreeSameText(items[i], b.items[i]);
      }
      assert CanonicalItems(items) == CanonicalItems(b.items);
    case Object(members) =>
      forall i, j | 0 <= i < |members| && 0 <= j < |b.members| && Meaning(members[i].value) == Meaning(b.members[j].value)
        ensures Canonical(members[i].value) == Canonical(b.members[j].value)
      {
        SameTreeSameText(members[i].value, b.members[j].value);
      }
      PrintedIsDistinct(members);
      PrintedIsDistinct(b.members);
      SameObjects(members, b.members);
    case _ =>
  }

  lemma DistinctHead(first: (Text, Text), rest: seq<(Text, Text)>)
    requires Distinct(rest) && forall i :: 0 <= i < |rest| ==> rest[i].0 != first.0
    ensures Distinct([first] + rest)
  {
  }

  lemma {:induction false} PrintedIsDistinct(members: seq<Field>)
    requires DistinctKeys(members)
    ensures Distinct(Printed(members))
    ensures forall i :: 0 <= i < |Printed(members)| ==> exists k :: 0 <= k < |members| && members[k].key == Printed(members)[i].0
  {
    if members != [] {
      var rest := members[1..];
      assert forall i :: 0 <= i < |rest| ==> rest[i] == members[i + 1];
      PrintedIsDistinct(rest);
      if members[0].value.Undefined? {
        assert Printed(members) == Printed(rest);
      } else {
        DistinctHead((members[0].key, Canonical(members[0].value)), Printed(rest));
        assert Printed(members) == [(members[0].key, Canonical(members[0].value))] + Printed(rest);
        assert members[0].key == Printed(members)[0].0;
      }
    }
  }

  // ---------------------------------------------------------------------------------------------
  // The order of members
  // ---------------------------------------------------------------------------------------------

  /** An object prints its defined members once each, every value in its own canonical text, in the order
      in which JavaScript sorts their keys. */
  lemma ObjectsPrintInOrder(members: seq<Field>) returns (printed: seq<(Text, Text)>)
    requires DistinctKeys(members)
    ensures Canonical(Object(members)) == [OPEN_BRACE] + Joined(Members(printed)) + [CLOSE_BRACE]
    ensures forall i, j :: 0 <= i < j < |printed| ==> Precedes(printed[i].0, printed[j].0)
    ensures forall p :: p in printed <==>
              exists i :: 0 <= i < |members| && !members[i].value.Undefined? && p == (members[i].key, Canonical(members[i].value))
  {
    PrintedIsDistinct(members);
    SortedIsAscending(Printed(members));
    PrintedHas(members);
    printed := Sorted(Printed(members));
    forall i, j | 0 <= i < j < |printed| ensures Precedes(printed[i].0, printed[j].0) {
      BeforeIff(printed[i].0, printed[j].0);
    }
  }

  // ---------------------------------------------------------------------------------------------
  // Results
  // ---------------------------------------------------------------------------------------------

  /** Two values print the same text exactly when they stand for the same tree: member order and undefined
      members never matter, and nothing else is ever lost. */
  lemma SameTextIffSameTree(a: Json, b: Json)
    requires Valid(a) && Valid(b)
    ensures Canonical(a) == Canonical(b) <==> Meaning(a) == Meaning(b)
  {
    if Meaning(a) == Meaning(b) {
      SameTreeSameText(a, b);
    }
    if Canonical(a) == Canonical(b) {
      CanonicalReads(a);
      CanonicalReads(b);
      assert Ends([]);
      assert ReadValue(Canonical(a) + []) == Some(Read(Meaning(a), []));
      assert ReadValue(Canonical(b) + []) == Some(Read(Meaning(b), []));
    }
  }
}
