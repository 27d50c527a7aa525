/** Parsing of RWSaturatable's `resources` configuration string,
    "name,rate;name,rate;...", into the list of discharge resource consumers
    (OnAwake). String.Split and String.Trim are modelled exactly; the
    resource-name lookup in PartResourceLibrary and double.TryParse are
    library calls and are passed in as functions. */
module ResourceConfig {

  datatype Option<T> = None | Some(value: T)

  /** One entry of dischargeResources: a resource id and the units per
      second drawn at full discharge. */
  datatype ResourceConsumer = ResourceConsumer(id: int, rate: real)

  // ---------------------------------------------------------------------
  // String.Split(char)

  /** String.Split with a single separator: every separator ends a piece,
      so adjacent or trailing separators produce empty pieces. */
  function Split(s: string, sep: char): (parts: seq<string>)
    ensures |parts| >= 1
    decreases |s|
  {
    if |s| == 0 then [""]
    else if s[0] == sep then [""] + Split(s[1..], sep)
    else
      var rest := Split(s[1..], sep);
      [[s[0]] + rest[0]] + rest[1..]
  }

  /** String.Join: the inverse of Split. */
  function Join(parts: seq<string>, sep: char): string
    requires |parts| >= 1
    decreases |parts|
  {
    if |parts| == 1 then parts[0] else parts[0] + [sep] + Join(parts[1..], sep)
  }

  function Occurrences(s: string, c: char): nat
  {
    if |s| == 0 then 0 else (if s[0] == c then 1 else 0) + Occurrences(s[1..], c)
  }

  /** Splitting loses nothing: joining the pieces back gives the input. */
  lemma {:induction false} JoinSplit(s: string, sep: char)
    ensures Join(Split(s, sep), sep) == s
    decreases |s|
  {
    if |s| == 0 {
    } else if s[0] == sep {
      JoinSplit(s[1..], sep);
      assert s == [sep] + s[1..];
    } else {
      var rest := Split(s[1..], sep);
      JoinSplit(s[1..], sep);
      JoinCons(s[0], rest, sep);
      assert s == [s[0]] + s[1..];
    }
  }

  /** Prefixing the first piece with a character prefixes the join. */
  lemma JoinCons(c: char, parts: seq<string>, sep: char)
    requires |parts| >= 1
    ensures Join([[c] + parts[0]] + parts[1..], sep) == [c] + Join(parts, sep)
  {
    var consed := [[c] + parts[0]] + parts[1..];
    assert consed[1..] == parts[1..];
  }

  /** No piece contains the separator. */
  lemma {:induction false} SplitPiecesFree(s: string, sep: char)
    ensures forall i :: 0 <= i < |Split(s, sep)| ==> sep !in Split(s, sep)[i]
    decreases |s|
  {
    if |s| > 0 {
      SplitPiecesFree(s[1..], sep);
      if s[0] != sep {
        var rest := Split(s[1..], sep);
        assert sep !in [s[0]] + rest[0] by {
          assert sep !in rest[0];
        }
      }
    }
  }

  /** There is one piece more than there are separators. */
  lemma {:induction false} SplitCount(s: string, sep: char)
    ensures |Split(s, sep)| == Occurrences(s, sep) + 1
    decreases |s|
  {
    if |s| > 0 {
      SplitCount(s[1..], sep);
    }
  }

  /** A trailing separator adds exactly one empty piece at the end. */
  lemma {:induction false} SplitTrailingSeparator(s: string, sep: char)
    ensures Split(s + [sep], sep) == Split(s, sep) + [""]
    decreases |s|
  {
    if |s| == 0 {
      assert Split([sep][1..], sep) == [""];
    } else {
      assert (s + [sep])[1..] == s[1..] + [sep];
      SplitTrailingSeparator(s[1..], sep);
    }
  }

  // ---------------------------------------------------------------------
  // String.Trim()

  /** Char.IsWhiteSpace: the Unicode space separators, line and paragraph
      separators, U+0009 to U+000D, U+0085 and U+00A0. */
  predicate IsWhiteSpace(c: char)
  {
    c == ' ' || ('\t' <= c <= '\r') || c == '\U{0085}' || c == '\U{00A0}'
    || c == '\U{1680}' || ('\U{2000}' <= c <= '\U{200A}') || c == '\U{2028}'
    || c == '\U{2029}' || c == '\U{202F}' || c == '\U{205F}' || c == '\U{3000}'
  }

  function TrimStart(s: string): (r: string)
    ensures |r| <= |s| && r == s[|s| - |r|..]
    ensures |r| > 0 ==> !IsWhiteSpace(r[0])
    ensures forall i :: 0 <= i < |s| - |r| ==> IsWhiteSpace(s[i])
    decreases |s|
  {
    if |s| > 0 && IsWhiteSpace(s[0]) then TrimStart(s[1..]) else s
  }

  function TrimEnd(s: string): (r: string)
    ensures |r| <= |s| && r == s[..|r|]
    ensures |r| > 0 ==> !IsWhiteSpace(r[|r| - 1])
    ensures forall i :: |r| <= i < |s| ==> IsWhiteSpace(s[i])
    decreases |s|
  {
    if |s| > 0 && IsWhiteSpace(s[|s| - 1]) then TrimEnd(s[..|s| - 1]) else s
  }

  /** String.Trim(): the input with its leading and trailing white space
      removed; what is left is a contiguous slice, everything cut off on
      either side is white space, and the slice starts and ends on a
      non-white-space character. */
  function Trim(s: string): (r: string)
    ensures exists i, j ::
              && 0 <= i <= j <= |s| && r == s[i..j]
              && (forall k :: 0 <= k < i ==> IsWhiteSpace(s[k]))
              && (forall k :: j <= k < |s| ==> IsWhiteSpace(s[k]))
    ensures |r| > 0 ==> !IsWhiteSpace(r[0]) && !IsWhiteSpace(r[|r| - 1])
  {
    var t := TrimStart(s);
    var r := TrimEnd(t);
    assert r == s[|s| - |t|..|s| - |t| + |r|];
    r
  }

  /** Trimming twice is trimming once. */
  lemma TrimIdempotent(s: string)
    ensures Trim(Trim(s)) == Trim(s)
  {
    var r := Trim(s);
    assert TrimStart(r) == r;
    assert TrimEnd(r) == r;
  }

  // ---------------------------------------------------------------------
  // The resources string

  /** double.TryParse leaves its out-parameter at 0 when it fails. */
  function RateOf(parsed: Option<real>): (rate: real)
    ensures parsed.None? ==> rate == 0.0
    ensures parsed.Some? ==> rate == parsed.value
  {
    match parsed
    case Some(v) => v
    case None => 0.0
  }

  /** One ';'-separated piece: skipped when empty, and kept only when it
      splits on ',' into exactly a name and a rate, both trimmed. */
  function ConsumerOf(pair: string, lookup: string -> int, parse: string -> Option<real>): (c: Option<ResourceConsumer>)
    ensures pair == "" ==> c.None?
    ensures c.Some? <==> pair != "" && |Split(pair, ',')| == 2
    ensures c.Some? ==>
      c.value.id == lookup(Trim(Split(pair, ',')[0])) && c.value.rate == RateOf(parse(Trim(Split(pair, ',')[1])))
  {
    if pair == "" then None
    else
      var nameAndRate := Split(pair, ',');
      if |nameAndRate| == 2 then
        Some(ResourceConsumer(lookup(Trim(nameAndRate[0])), RateOf(parse(Trim(nameAndRate[1])))))
      else None
  }

  /** The consumers built from a sequence of pieces, in order. */
  function Consumers(pairs: seq<string>, lookup: string -> int, parse: string -> Option<real>): (cs: seq<ResourceConsumer>)
    ensures |cs| <= |pairs|
    decreases |pairs|
  {
    if |pairs| == 0 then []
    else
      var init := Consumers(pairs[..|pairs| - 1], lookup, parse);
      match ConsumerOf(pairs[|pairs| - 1], lookup, parse)
      case Some(c) => init + [c]
      case None => init
  }

  lemma ConsumersSnoc(pairs: seq<string>, pair: string, lookup: string -> int, parse: string -> Option<real>)
    ensures Consumers(pairs + [pair], lookup, parse)
         == Consumers(pairs, lookup, parse) + (match ConsumerOf(pair, lookup, parse) case Some(c) => [c] case None => [])
  {
    assert (pairs + [pair])[..|pairs|] == pairs;
  }

  /** Every consumer comes from some piece of the input, in a way that
      ConsumerOf accepts. */
  lemma {:induction false} ConsumersFromPieces(pairs: seq<string>, lookup: string -> int, parse: string -> Option<real>, k: nat)
    requires k < |Consumers(pairs, lookup, parse)|
    ensures exists i :: 0 <= i < |pairs| && ConsumerOf(pairs[i], lookup, parse) == Some(Consumers(pairs, lookup, parse)[k])
    decreases |pairs|
  {
    var init := Consumers(pairs[..|pairs| - 1], lookup, parse);
    if k < |init| {
      ConsumersFromPieces(pairs[..|pairs| - 1], lookup, parse, k);
      var i :| 0 <= i < |pairs| - 1 && ConsumerOf(pairs[..|pairs| - 1][i], lookup, parse) == Some(init[k]);
      assert pairs[i] == pairs[..|pairs| - 1][i];
    } else {
      assert ConsumerOf(pairs[|pairs| - 1], lookup, parse) == Some(Consumers(pairs, lookup, parse)[k]);
    }
  }

  /** No accepted piece is lost: the consumer of every piece that
      ConsumerOf accepts is in the list. */
  lemma {:induction false} ConsumersComplete(pairs: seq<string>, lookup: string -> int, parse: string -> Option<real>, i: nat)
    requires i < |pairs| && ConsumerOf(pairs[i], lookup, parse).Some?
    ensures ConsumerOf(pairs[i], lookup, parse).value in Consumers(pairs, lookup, parse)
    decreases |pairs|
  {
    var init := pairs[..|pairs| - 1];
    assert pairs == init + [pairs[|pairs| - 1]];
    ConsumersSnoc(init, pairs[|pairs| - 1], lookup, parse);
    if i < |pairs| - 1 {
      assert init[i] == pairs[i];
      ConsumersComplete(init, lookup, parse, i);
    }
  }

  /** dischargeResources as OnAwake leaves it: the consumers of the
      ';'-separated pieces, or none at all when the string is null or empty. */
  function ParseResources(resources: Option<string>, lookup: string -> int, parse: string -> Option<real>): seq<ResourceConsumer>
  {
    match resources
    case None => []
    case Some(s) => if s == "" then [] else Consumers(Split(s, ';'), lookup, parse)
  }

  predicate AnyPositiveRate(cs: seq<ResourceConsumer>)
  {
    exists i :: 0 <= i < |cs| && cs[i].rate > 0.0
  }

  /** canForceDischarge as OnAwake leaves it. */
  function CanForceDischarge(resources: Option<string>, lookup: string -> int, parse: string -> Option<real>): (can: bool)
    ensures resources == None || resources == Some("") ==> !can
    ensures can <==> AnyPositiveRate(ParseResources(resources, lookup, parse))
  {
    AnyPositiveRate(ParseResources(resources, lookup, parse))
  }

  /** A trailing ';' only adds an empty piece, which is skipped. */
  lemma TrailingSemicolonIgnored(s: string, lookup: string -> int, parse: string -> Option<real>)
    ensures ParseResources(Some(s + ";"), lookup, parse) == ParseResources(Some(s), lookup, parse)
  {
    SplitTrailingSeparator(s, ';');
    var pieces := Split(s, ';');
    assert (pieces + [""])[..|pieces + [""]| - 1] == pieces;
    if s == "" {
      assert s + ";" == ";";
      assert Split(";", ';') == ["", ""];
      assert Consumers(["", ""], lookup, parse) == Consumers([""], lookup, parse) == [] by {
        assert ["", ""][..1] == [""];
        assert [""][..0] == [];
      }
    }
  }

  /** A worked case: the empty piece, the piece with three comma-separated
      parts and the piece without a comma are all dropped, and the names and
      rates are trimmed before lookup and parsing. */
  lemma ParseExample(lookup: string -> int, parse: string -> Option<real>)
    ensures ParseResources(Some(" A , 1;;B,2,3;C"), lookup, parse)
         == [ResourceConsumer(lookup("A"), RateOf(parse("1")))]
  {
    ExampleSplit();
    ExampleConsumers(lookup, parse);
  }

  lemma ExampleSplit()
    ensures Split(" A , 1;;B,2,3;C", ';') == [" A , 1", "", "B,2,3", "C"]
  {
    SplitLiteral(" A , 1;;B,2,3;C", ';', [" A , 1", "", "B,2,3", "C"]);
  }

  lemma ExampleConsumers(lookup: string -> int, parse: string -> Option<real>)
    ensures Consumers([" A , 1", "", "B,2,3", "C"], lookup, parse)
         == [ResourceConsumer(lookup("A"), RateOf(parse("1")))]
  {
    ExampleKept(lookup, parse);
    ExampleThreeParts(lookup, parse);
    ExampleNoComma(lookup, parse);
    hide Split, Trim, ConsumerOf;
    var a := ResourceConsumer(lookup("A"), RateOf(parse("1")));
    ConsumersSnoc([], " A , 1", lookup, parse);
    assert Consumers([" A , 1"], lookup, parse) == [a] by {
      assert [] + [" A , 1"] == [" A , 1"];
    }
    ConsumersSnoc([" A , 1"], "", lookup, parse);
    ConsumersSnoc([" A , 1", ""], "B,2,3", lookup, parse);
    ConsumersSnoc([" A , 1", "", "B,2,3"], "C", lookup, parse);
    assert [" A , 1"] + [""] == [" A , 1", ""];
    assert [" A , 1", ""] + ["B,2,3"] == [" A , 1", "", "B,2,3"];
    assert [" A , 1", "", "B,2,3"] + ["C"] == [" A , 1", "", "B,2,3", "C"];
  }

  lemma ExampleKept(lookup: string -> int, parse: string -> Option<real>)
    ensures ConsumerOf(" A , 1", lookup, parse) == Some(ResourceConsumer(lookup("A"), RateOf(parse("1"))))
  {
    SplitLiteral(" A , 1", ',', [" A ", " 1"]);
    ExampleTrimName();
    ExampleTrimRate();
  }

  lemma ExampleThreeParts(lookup: string -> int, parse: string -> Option<real>)
    ensures ConsumerOf("B,2,3", lookup, parse) == None
  {
    SplitLiteral("B,2,3", ',', ["B", "2", "3"]);
  }

  lemma ExampleNoComma(lookup: string -> int, parse: string -> Option<real>)
    ensures ConsumerOf("C", lookup, parse) == None
  {
    SplitLiteral("C", ',', ["C"]);
  }

  lemma ExampleTrimName()
    ensures Trim(" A ") == "A"
  {
    assert TrimStart(" A ") == "A " by {
      assert !IsWhiteSpace('A');
      assert " A "[1..] == "A ";
    }
    assert TrimEnd("A ") == "A" by {
      assert !IsWhiteSpace('A');
      assert "A "[..1] == "A";
    }
    hide TrimStart, TrimEnd;
  }

  lemma ExampleTrimRate()
    ensures Trim(" 1") == "1"
  {
    assert TrimStart(" 1") == "1" by {
      assert !IsWhiteSpace('1');
      assert " 1"[1..] == "1";
    }
    assert TrimEnd("1") == "1" by {
      assert !IsWhiteSpace('1');
    }
    hide TrimStart, TrimEnd;
  }

  /** Split agrees with Join on a list of separator-free pieces: used to
      evaluate Split on literal strings. */
  lemma SplitLiteral(s: string, sep: char, parts: seq<string>)
    requires |parts| >= 1 && forall i :: 0 <= i < |parts| ==> sep !in parts[i]
    requires s == Join(parts, sep)
    ensures Split(s, sep) == parts
  {
    SplitJoin(parts, sep);
  }

  /** Joining separator-free pieces and splitting again gives them back. */
  lemma {:induction false} SplitJoin(parts: seq<string>, sep: char)
    requires |parts| >= 1 && forall i :: 0 <= i < |parts| ==> sep !in parts[i]
    ensures Split(Join(parts, sep), sep) == parts
    decreases |parts|, |parts[0]|
  {
    if |parts| == 1 {
      SplitNoSeparator(parts[0], sep);
    } else if parts[0] == "" {
      var tail := Join(parts[1..], sep);
      assert Join(parts, sep) == [sep] + tail;
      assert ([sep] + tail)[1..] == tail;
      SplitJoin(parts[1..], sep);
      assert parts == [""] + parts[1..];
    } else {
      var c := parts[0][0];
      var shorter := [parts[0][1..]] + parts[1..];
      assert forall i :: 0 <= i < |shorter| ==> sep !in shorter[i] by {
        assert shorter[0] == parts[0][1..];
        assert forall i :: 1 <= i < |shorter| ==> shorter[i] == parts[i];
      }
      assert parts == [[c] + shorter[0]] + shorter[1..] by {
        assert parts[0] == [c] + parts[0][1..];
      }
      JoinCons(c, shorter, sep);
      SplitJoin(shorter, sep);
      SplitCons(c, Join(shorter, sep), sep);
    }
  }

  /** A leading non-separator character joins the first piece. */
  lemma SplitCons(c: char, t: string, sep: char)
    requires c != sep
    ensures Split([c] + t, sep) == [[c] + Split(t, sep)[0]] + Split(t, sep)[1..]
  {
    assert ([c] + t)[1..] == t;
  }

  lemma {:induction false} SplitNoSeparator(s: string, sep: char)
    requires sep !in s
    ensures Split(s, sep) == [s]
    decreases |s|
  {
    if |s| > 0 {
      SplitNoSeparator(s[1..], sep);
      assert s == [s[0]] + s[1..];
    }
  }

  lemma TakeSnoc<T>(s: seq<T>, i: nat)
    requires i < |s|
    ensures s[..i + 1] == s[..i] + [s[i]]
  {
  }

  /** The body of OnAwake's loop: skip an empty piece, split the rest on
      ',' and keep a trimmed name and rate when there are exactly two parts. */
  method AddConsumer(consumers: seq<ResourceConsumer>, pair: string, lookup: string -> int,
                     parse: string -> Option<real>) returns (result: seq<ResourceConsumer>)
    ensures result == consumers + (match ConsumerOf(pair, lookup, parse) case Some(c) => [c] case None => [])
  {
    result := consumers;
    if pair != "" {
      var nameAndRate := Split(pair, ',');
      if |nameAndRate| == 2 {
        var id := lookup(Trim(nameAndRate[0]));
        var rate := RateOf(parse(Trim(nameAndRate[1])));
        result := result + [ResourceConsumer(id, rate)];
      }
    }
    assert result == consumers + (match ConsumerOf(pair, lookup, parse) case Some(c) => [c] case None => []);
  }

  /** OnAwake's loop over the ';'-separated pieces of a non-empty
      `resources` string, followed by `Any(rc => rc.Rate > 0)`. */
  method BuildConsumers(resources: string, lookup: string -> int, parse: string -> Option<real>)
    returns (consumers: seq<ResourceConsumer>, canForce: bool)
    requires resources != ""
    ensures consumers == ParseResources(Some(resources), lookup, parse)
    ensures canForce <==> exists i :: 0 <= i < |consumers| && consumers[i].rate > 0.0
  {
    var pieces := Split(resources, ';');
    consumers := [];
    ghost var seen: seq<string> := [];
    var i := 0;
    while i < |pieces|
      invariant 0 <= i <= |pieces|
      invariant seen == pieces[..i]
      invariant consumers == Consumers(seen, lookup, parse)
    {
      var pair := pieces[i];
      TakeSnoc(pieces, i);
      ConsumersSnoc(seen, pair, lookup, parse);
      consumers := AddConsumer(consumers, pair, lookup, parse);
      seen := seen + [pair];
      i := i + 1;
    }
    assert seen == pieces;
    canForce := exists k | 0 <= k < |consumers| :: consumers[k].rate > 0.0;
  }
}
