/** The message records of learning/message.py and their `__str__`
    renderings. Every message stores its sender id and step as given; only
    `EstimatesMessage` and `CandidateMessage` define `__str__`. Candidate ids
    are rendered the way Python renders a list of ints (`[1, 2]`). */
module Messages {
  import opened Common

  datatype Message =
    | EstimatesMessage(sender: int, step: int, estimates: seq<real>)
    | CandidateMessage(sender: int, step: int, candidates: seq<int>)
    | PingMessage(sender: int, step: int)
    | ReplyPingMessage(sender: int, step: int)
    | ConfirmElectionMessage(sender: int, step: int)

  function DigitChar(d: nat): (c: char)
    requires d < 10
    ensures '0' <= c <= '9'
  {
    "0123456789"[d]
  }

  function DigitValue(c: char): nat
  {
    var v := (c as int) - ('0' as int);
    if 0 <= v < 10 then v else 0
  }

  predicate IsDigit(c: char)
  {
    '0' <= c <= '9'
  }

  /** Decimal digits of a natural number, most significant first. */
  function NatText(n: nat): (s: string)
    ensures s != []
  {
    if n < 10 then [DigitChar(n)] else NatText(n / 10) + [DigitChar(n % 10)]
  }

  /** The decimal text is made of digits only. */
  lemma {:induction false} NatTextDigits(n: nat)
    ensures forall k :: 0 <= k < |NatText(n)| ==> IsDigit(NatText(n)[k])
  {
    if n >= 10 {
      NatTextDigits(n / 10);
    }
  }

  /** `str(i)` for a Python int. */
  function IntText(i: int): (s: string)
    ensures s != []
  {
    if i < 0 then "-" + NatText(-i) else NatText(i)
  }

  function ReadNat(s: string): nat
  {
    if s == [] then 0 else ReadNat(s[..|s| - 1]) * 10 + DigitValue(s[|s| - 1])
  }

  function ReadInt(s: string): int
  {
    if s != [] && s[0] == '-' then -(ReadNat(s[1..]) as int) else ReadNat(s)
  }

  lemma {:induction false} ReadNatText(n: nat)
    ensures ReadNat(NatText(n)) == n
  {
    if n >= 10 {
      var s := NatText(n / 10) + [DigitChar(n % 10)];
      assert s[..|s| - 1] == NatText(n / 10);
      ReadNatText(n / 10);
    } else {
      assert NatText(n)[..0] == [];
    }
  }

  /** Reading back the decimal text of an int gives the int. */
  lemma ReadIntText(i: int)
    ensures ReadInt(IntText(i)) == i
  {
    if i < 0 {
      ReadIntTextNegative(i);
    } else {
      ReadIntTextNatural(i);
    }
  }

  lemma ReadIntTextNegative(i: int)
    requires i < 0
    ensures ReadInt(IntText(i)) == i
  {
    assert IntText(i) == "-" + NatText(-i);
    NegativeText(-i);
  }

  lemma NegativeText(n: nat)
    ensures ReadInt("-" + NatText(n)) == -(n as int)
  {
    ReadNatText(n);
    ReadNegative(NatText(n));
  }

  lemma ReadIntTextNatural(i: int)
    requires i >= 0
    ensures ReadInt(IntText(i)) == i
  {
    NatTextDigits(i);
    ReadNonNegative(NatText(i));
    ReadNatText(i);
  }

  lemma ReadNegative(d: string)
    ensures ReadInt("-" + d) == -(ReadNat(d) as int)
  {
    assert ("-" + d)[1..] == d;
  }

  lemma ReadNonNegative(d: string)
    requires d != [] && IsDigit(d[0])
    ensures ReadInt(d) == ReadNat(d) as int
  {
  }

  /** The items of a Python list of ints, separated by ", ". */
  function JoinInts(xs: seq<int>): string
  {
    if xs == [] then ""
    else if |xs| == 1 then IntText(xs[0])
    else IntText(xs[0]) + ", " + JoinInts(xs[1..])
  }

  /** `str(list)` for a list of ints. */
  function ListText(xs: seq<int>): (s: string)
    ensures |s| >= 2 && s[0] == '[' && s[|s| - 1] == ']'
  {
    "[" + JoinInts(xs) + "]"
  }

  /** `str(m)`: the `__str__` of the two classes that define it. The other
      classes fall back to Python's default representation, which embeds an
      object address, so they have no modelled text (`None`). How numpy
      renders an estimates vector is given as `showReals`. */
  function Str(m: Message, showReals: seq<real> -> string): (r: Option<string>)
    ensures r.Some? <==> m.EstimatesMessage? || m.CandidateMessage?
    ensures r.Some? ==> |r.value| >= 6 && r.value[..6] == "From: "
  {
    match m
    case EstimatesMessage(sender, step, estimates) =>
      Some("From: " + IntText(sender) + " @ " + IntText(step) + " \t Estimates: " + showReals(estimates))
    case CandidateMessage(sender, step, candidates) =>
      Some("From: " + IntText(sender) + " @ " + IntText(step) + " \t Candidates: " + ListText(candidates))
    case _ => None
  }

  /** learning/v2.py dispatches on the tags "ConfirmElectionMsg",
      "CandidateMsg", "RequestMsg", "RequestBroadcastMsg" and "FailureMsg".
      No rendered message starts with any of them: each starts with "From: ". */
  lemma RenderedTextHasNoTag(m: Message, showReals: seq<real> -> string, tag: string)
    requires tag in ["ConfirmElectionMsg", "CandidateMsg", "RequestMsg", "RequestBroadcastMsg", "FailureMsg"]
    requires Str(m, showReals).Some?
    ensures !(|tag| <= |Str(m, showReals).value| && Str(m, showReals).value[..|tag|] == tag)
  {
    var s := Str(m, showReals).value;
    assert s[0] == 'F' && s[1] == 'r' by {
      assert s[0] == s[..6][0] && s[1] == s[..6][1];
    }
    assert tag[0] != 'F' || tag[1] != 'r';
    if |tag| <= |s| {
      assert |tag| >= 2;
      assert s[..|tag|][0] == s[0] && s[..|tag|][1] == s[1];
    }
  }

  predicate IsNumberChar(c: char)
  {
    c == '-' || IsDigit(c)
  }

  // A reader for the text of `str(m)`. The program itself never parses
  // this text (see RenderedTextHasNoTag); the reader is here only to show
  // that the rendering of a candidate message is injective.

  /** Splits off the longest prefix of number characters. */
  function TakeNumber(s: string): (r: (string, string))
    ensures r.0 + r.1 == s
  {
    if s == [] || !IsNumberChar(s[0]) then ("", s)
    else
      var (t, rest) := TakeNumber(s[1..]);
      assert [s[0]] + s[1..] == s;
      ([s[0]] + t, rest)
  }

  lemma {:induction false} TakeNumberOf(t: string, rest: string)
    requires forall k :: 0 <= k < |t| ==> IsNumberChar(t[k])
    requires rest == [] || !IsNumberChar(rest[0])
    ensures TakeNumber(t + rest) == (t, rest)
  {
    if t != [] {
      assert (t + rest)[1..] == t[1..] + rest;
      TakeNumberOf(t[1..], rest);
      assert [t[0]] + t[1..] == t;
    } else {
      assert t + rest == rest;
    }
  }

  lemma IntTextIsNumber(i: int)
    ensures forall k :: 0 <= k < |IntText(i)| ==> IsNumberChar(IntText(i)[k])
  {
    var d := NatText(if i < 0 then -i else i);
    NatTextDigits(if i < 0 then -i else i);
    if i < 0 {
      forall k | 0 <= k < |IntText(i)| ensures IsNumberChar(IntText(i)[k]) {
        if k > 0 {
          assert IntText(i)[k] == d[k - 1];
        }
      }
    }
  }

  /** Reads one int token and returns the text after it. */
  function ReadToken(s: string): (r: Option<(int, string)>)
    ensures r.Some? ==> |r.value.1| < |s|
  {
    var (t, rest) := TakeNumber(s);
    if t == [] then None else Some((ReadInt(t), rest))
  }

  lemma ReadTokenOf(i: int, rest: string)
    requires rest == [] || !IsNumberChar(rest[0])
    ensures ReadToken(IntText(i) + rest) == Some((i, rest))
  {
    IntTextIsNumber(i);
    TakeNumberOf(IntText(i), rest);
    ReadIntText(i);
  }

  /** Reads list items up to and including the closing bracket. */
  function ReadItems(s: string): Option<seq<int>>
    decreases |s|
  {
    if s == "]" then Some([])
    else
      var token := ReadToken(s);
      if token.None? then None
      else
        var x := token.value.0;
        var rest := token.value.1;
        if rest == "]" then Some([x])
        else if |rest| >= 2 && rest[..2] == ", " then
          var tail := ReadItems(rest[2..]);
          if tail.None? then None else Some([x] + tail.value)
        else None
  }

  lemma ReadItemsOne(x: int)
    ensures ReadItems(IntText(x) + "]") == Some([x])
  {
    var s := IntText(x) + "]";
    ReadTokenOf(x, "]");
    assert s != "]" by {
      assert |s| >= 2;
    }
  }

  lemma ReadItemsCons(x: int, rest: string, tail: string)
    requires rest == ", " + tail
    ensures ReadItems(IntText(x) + rest) == (if ReadItems(tail).None? then None else Some([x] + ReadItems(tail).value))
  {
    var s := IntText(x) + rest;
    ReadTokenOf(x, rest);
    assert s != "]" by {
      assert |s| >= 2;
    }
    assert rest != "]" && rest[..2] == ", " && rest[2..] == tail;
  }

  lemma {:induction false} ReadItemsOf(xs: seq<int>)
    ensures ReadItems(JoinInts(xs) + "]") == Some(xs)
  {
    if xs == [] {
      assert JoinInts(xs) + "]" == "]";
    } else if |xs| == 1 {
      JoinIntsOne(xs);
      ReadItemsOne(xs[0]);
    } else {
      ReadItemsOf(xs[1..]);
      ReadItemsStep(xs);
    }
  }

  lemma ReadItemsStep(xs: seq<int>)
    requires |xs| >= 2 && ReadItems(JoinInts(xs[1..]) + "]") == Some(xs[1..])
    ensures ReadItems(JoinInts(xs) + "]") == Some(xs)
  {
    assert [xs[0]] + xs[1..] == xs;
    JoinIntsCons(xs);
    ReadItemsConsOf(xs[0], JoinInts(xs[1..]) + "]", xs[1..], JoinInts(xs) + "]");
  }

  lemma ReadItemsConsOf(x: int, tail: string, ys: seq<int>, s: string)
    requires s == IntText(x) + (", " + tail) && ReadItems(tail) == Some(ys)
    ensures ReadItems(s) == Some([x] + ys)
  {
    ReadItemsCons(x, ", " + tail, tail);
  }

  lemma JoinIntsOne(xs: seq<int>)
    requires |xs| == 1
    ensures JoinInts(xs) + "]" == IntText(xs[0]) + "]" && [xs[0]] == xs
  {
  }

  lemma JoinIntsCons(xs: seq<int>)
    requires |xs| >= 2
    ensures JoinInts(xs) + "]" == IntText(xs[0]) + (", " + (JoinInts(xs[1..]) + "]"))
  {
    var a, b := IntText(xs[0]), JoinInts(xs[1..]);
    assert JoinInts(xs) == a + ", " + b;
    Regroup4(a, ", ", b, "]");
  }

  lemma Regroup4(a: string, b: string, c: string, d: string)
    ensures a + b + c + d == a + (b + (c + d))
  {
  }

  /** Removes `prefix` from the front of `s`, if it is there. */
  function Expect(prefix: string, s: string): (r: Option<string>)
    ensures r.Some? ==> prefix + r.value == s
  {
    if |prefix| <= |s| && s[..|prefix|] == prefix then Some(s[|prefix|..]) else None
  }

  lemma ExpectOf(prefix: string, rest: string)
    ensures Expect(prefix, prefix + rest) == Some(rest)
  {
    assert (prefix + rest)[..|prefix|] == prefix;
    assert (prefix + rest)[|prefix|..] == rest;
  }

  /** Reads the "From: sender @ step" head shared by both renderings. */
  function DecodeHead(s: string): Option<(int, int, string)>
  {
    match Expect("From: ", s)
    case None => None
    case Some(s1) =>
      match ReadToken(s1)
      case None => None
      case Some((sender, s2)) =>
        match Expect(" @ ", s2)
        case None => None
        case Some(s3) =>
          match ReadToken(s3)
          case None => None
          case Some((step, s4)) => Some((sender, step, s4))
  }

  lemma Regroup(a: string, b: string, c: string, d: string, e: string)
    ensures a + b + c + d + e == a + (b + (c + (d + e)))
  {
  }

  lemma DecodeHeadOf(sender: int, step: int, rest: string)
    requires rest == [] || !IsNumberChar(rest[0])
    ensures DecodeHead("From: " + IntText(sender) + " @ " + IntText(step) + rest) == Some((sender, step, rest))
  {
    var s4 := IntText(step) + rest;
    var s2 := " @ " + s4;
    var s1 := IntText(sender) + s2;
    Regroup("From: ", IntText(sender), " @ ", IntText(step), rest);
    ExpectOf("From: ", s1);
    assert Expect("From: ", "From: " + s1) == Some(s1);
    ReadTokenOf(sender, s2);
    assert ReadToken(s1) == Some((sender, s2));
    ExpectOf(" @ ", s4);
    assert Expect(" @ ", s2) == Some(s4);
    ReadTokenOf(step, rest);
    assert ReadToken(s4) == Some((step, rest));
  }

  /** Reads a rendered candidate message back into its fields. */
  function DecodeCandidate(s: string): Option<Message>
  {
    match DecodeHead(s)
    case None => None
    case Some((sender, step, s4)) =>
      match Expect(" \t Candidates: ", s4)
      case None => None
      case Some(s5) =>
        match Expect("[", s5)
        case None => None
        case Some(s6) =>
          match ReadItems(s6)
          case None => None
          case Some(xs) => Some(CandidateMessage(sender, step, xs))
  }

  /** The rendering of a candidate message is injective: the model's reader
      recovers its sender, step and candidate list from the text. */
  lemma DecodeCandidateStr(m: Message, showReals: seq<real> -> string)
    requires m.CandidateMessage?
    ensures DecodeCandidate(Str(m, showReals).value) == Some(m)
  {
    var head := "From: " + IntText(m.sender) + " @ " + IntText(m.step);
    var list := ListText(m.candidates);
    ConcatAssoc(head, " \t Candidates: ", list);
    DecodeCandidateOf(m.sender, m.step, m.candidates, " \t Candidates: " + list);
  }

  lemma DecodeCandidateOf(sender: int, step: int, xs: seq<int>, tail: string)
    requires tail == " \t Candidates: " + ListText(xs)
    ensures DecodeCandidate("From: " + IntText(sender) + " @ " + IntText(step) + tail)
         == Some(CandidateMessage(sender, step, xs))
  {
    var items := JoinInts(xs) + "]";
    ConcatAssoc("[", JoinInts(xs), "]");
    DecodeHeadOf(sender, step, tail);
    ExpectOf(" \t Candidates: ", ListText(xs));
    ExpectOf("[", items);
    ReadItemsOf(xs);
  }
}
