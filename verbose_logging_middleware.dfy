/** `rele/contrib/verbose_logging_middleware.py`: on a processing failure the
    message handed to the logging middleware is wrapped so that its `repr`
    shows the whole payload, the ordering key and the attributes as an
    indented JSON object. */
module VerboseLogging {
  import opened Wrappers
  import opened Strings
  import opened Exceptions
  import opened Messages
  import opened Subscriptions

  /** Python's `<` on `str`: code point by code point, a proper prefix
      first. */
  predicate Less(a: string, b: string)
  {
    if b == [] then false
    else if a == [] then true
    else if a[0] != b[0] then a[0] < b[0]
    else Less(a[1..], b[1..])
  }

  lemma {:induction false} LessIrreflexive(a: string)
    ensures !Less(a, a)
  {
    if a != [] {
      LessIrreflexive(a[1..]);
    }
  }

  lemma {:induction false} LessTotal(a: string, b: string)
    requires a != b
    ensures Less(a, b) || Less(b, a)
  {
    if a != [] && b != [] && a[0] == b[0] {
      assert a == [a[0]] + a[1..] && b == [b[0]] + b[1..];
      LessTotal(a[1..], b[1..]);
    }
  }

  lemma {:induction false} LessTransitive(a: string, b: string, c: string)
    requires Less(a, b) && Less(b, c)
    ensures Less(a, c)
  {
    if a != [] && a[0] == b[0] && b[0] == c[0] {
      LessTransitive(a[1..], b[1..], c[1..]);
    }
  }

  /** Every key of `keys` other than `m` is above `m`. */
  ghost predicate Below(m: string, keys: set<string>)
  {
    forall k :: k in keys && k != m ==> Less(m, k)
  }

  /** Something below `m` is below everything `m` is below. */
  lemma BelowTransitive(k: string, m: string, keys: set<string>)
    requires Less(k, m) && Below(m, keys)
    ensures Below(k, keys)
  {
    forall j | j in keys && j != k
      ensures Less(k, j)
    {
      if j != m {
        LessTransitive(k, m, j);
      }
    }
  }

  /** The smallest of a non-empty set of keys. */
  ghost function Smallest(keys: set<string>): (m: string)
    requires keys != {}
    ensures m in keys && Below(m, keys)
    decreases |keys|
  {
    var k :| k in keys;
    if keys == {k} then k
    else
      var m := Smallest(keys - {k});
      if Less(k, m) then
        BelowTransitive(k, m, keys - {k});
        k
      else
        LessTotal(k, m);
        m
  }

  predicate StrictlySorted(s: seq<string>)
  {
    forall i, j :: 0 <= i < j < |s| ==> Less(s[i], s[j])
  }

  /** `sorted(keys)`. */
  ghost function SortedKeys(keys: set<string>): (r: seq<string>)
    ensures |r| == |keys|
    ensures forall k :: k in r <==> k in keys
    ensures StrictlySorted(r)
    decreases |keys|
  {
    if keys == {} then []
    else
      var m := Smallest(keys);
      var rest := SortedKeys(keys - {m});
      ConsSorted(m, rest, keys);
      [m] + rest
  }

  /** The smallest key followed by a sorted listing of the others is a
      sorted listing of all of them. */
  lemma ConsSorted(m: string, rest: seq<string>, keys: set<string>)
    requires m in keys && Below(m, keys)
    requires StrictlySorted(rest) && forall k :: k in rest <==> k in keys - {m}
    ensures StrictlySorted([m] + rest)
    ensures forall k :: k in [m] + rest <==> k in keys
  {
    var s := [m] + rest;
    forall i, j | 0 <= i < j < |s|
      ensures Less(s[i], s[j])
    {
      assert s[j] == rest[j - 1] && rest[j - 1] in rest;
      if i > 0 {
        assert s[i] == rest[i - 1];
      } else {
        assert s[j] in keys && s[j] != m;
      }
    }
    assert forall k :: k in s <==> k == m || k in rest;
  }

  /** The head of a strictly sorted listing of `keys` is their smallest. */
  lemma SortedHead(s: seq<string>, keys: set<string>)
    requires s != [] && StrictlySorted(s) && forall k :: k in s <==> k in keys
    ensures keys != {} && s[0] == Smallest(keys)
  {
    assert s[0] in keys;
    var m := Smallest(keys);
    if s[0] != m {
      var i :| 0 <= i < |s| && s[i] == m;
      assert Less(s[0], m);
      assert Less(m, s[0]);
      LessTransitive(m, s[0], m);
      LessIrreflexive(m);
    }
  }

  /** The tail of a strictly sorted listing of `keys` is a strictly sorted
      listing of the others. */
  lemma SortedTail(s: seq<string>, keys: set<string>)
    requires s != [] && StrictlySorted(s) && forall k :: k in s <==> k in keys
    ensures StrictlySorted(s[1..]) && forall k :: k in s[1..] <==> k in keys - {s[0]}
  {
    forall k | k in s[1..]
      ensures k != s[0]
    {
      var i :| 1 <= i < |s| && s[i] == k;
      assert Less(s[0], s[i]);
      LessIrreflexive(s[0]);
    }
    assert forall k :: k in s <==> k == s[0] || k in s[1..];
  }

  /** A set has only one strictly sorted listing, so `SortedKeys` is the
      order `sort_keys=True` produces. */
  lemma {:induction false} SortedKeysUnique(s: seq<string>, keys: set<string>)
    requires StrictlySorted(s) && forall k :: k in s <==> k in keys
    ensures s == SortedKeys(keys)
    decreases |keys|
  {
    if s == [] {
      assert keys == {};
    } else {
      SortedHead(s, keys);
      SortedTail(s, keys);
      var rest := keys - {s[0]};
      assert |rest| < |keys|;
      SortedKeysUnique(s[1..], rest);
      SortedKeysCons(keys);
      assert s == [s[0]] + s[1..];
    }
  }

  /** One step of `SortedKeys`: the smallest key, then the others sorted. */
  lemma SortedKeysCons(keys: set<string>)
    requires keys != {}
    ensures SortedKeys(keys) == [Smallest(keys)] + SortedKeys(keys - {Smallest(keys)})
  {
  }

  /** One member line of `json.dumps(attrs, indent=2, separators=(",", ": "),
      sort_keys=True)`; `quote` is JSON's string encoding. */
  function MemberLine(quote: string -> string, key: string, value: string, last: bool): string
  {
    "  " + quote(key) + ": " + quote(value) + (if last then "" else ",")
  }

  /** The member lines for `keys`, in that order. */
  function MemberLines(quote: string -> string, attrs: map<string, string>, keys: seq<string>): (r: seq<string>)
    requires forall k :: k in keys ==> k in attrs
    ensures |r| == |keys|
    ensures forall i :: 0 <= i < |keys| ==> r[i] == MemberLine(quote, keys[i], attrs[keys[i]], i == |keys| - 1)
  {
    if keys == [] then []
    else [MemberLine(quote, keys[0], attrs[keys[0]], |keys| == 1)] + MemberLines(quote, attrs, keys[1..])
  }

  /** The lines of the attribute dump: `{}` for no attributes, otherwise an
      opening brace, one member per line with sorted keys, a closing
      brace. */
  ghost function DumpLines(attrs: map<string, string>, quote: string -> string): seq<string>
  {
    if |attrs| == 0 then ["{}"]
    else ["{"] + MemberLines(quote, attrs, SortedKeys(attrs.Keys)) + ["}"]
  }

  /** What `json.dumps(dict(attrs), indent=2, separators=(",", ": "),
      sort_keys=True)` returns. */
  ghost function Dump(attrs: map<string, string>, quote: string -> string): string
  {
    Join('\n', DumpLines(attrs, quote))
  }

  /** JSON's string encoding escapes control characters, so it never yields
      a line break. */
  ghost predicate SingleLine(quote: string -> string)
  {
    forall s :: '\n' !in quote(s)
  }

  /** The braces of the dump hold no line break and no whitespace. */
  lemma BraceFacts()
    ensures '\n' !in "{" && '\n' !in "}" && '\n' !in "{}"
    ensures LStrip("{") == "{" && LStrip("{}") == "{}"
    ensures NonBlank("{") && NonBlank("{}")
    ensures "  " + "}" == "  }"
  {
    assert !IsSpace('{');
    assert "{}" == ['{'] + "}";
    LStripCons('{', "}");
    assert "{" == ['{'] + "";
    LStripCons('{', "");
  }

  /** The opening brace is kept by `lstrip`, and the closing one indented. */
  lemma OpenBrace()
    ensures LStrip("{") == "{" && NonBlank("{") && "  " + "}" == "  }"
  {
    assert !IsSpace('{');
    assert "{" == ['{'] + "";
    LStripCons('{', "");
  }

  /** A member line holds no line break when the string encoding yields
      none. */
  lemma MemberLineSingle(quote: string -> string, key: string, value: string, last: bool)
    requires SingleLine(quote)
    ensures '\n' !in MemberLine(quote, key, value, last)
  {
    assert '\n' !in quote(key) && '\n' !in quote(value);
    assert '\n' !in "  " && '\n' !in ": " && '\n' !in ",";
  }

  /** With a single-line string encoding, no member line holds a line
      break. */
  lemma {:induction false} MemberLinesSingle(quote: string -> string, attrs: map<string, string>, keys: seq<string>)
    requires SingleLine(quote) && forall k :: k in keys ==> k in attrs
    ensures forall i :: 0 <= i < |keys| ==> '\n' !in MemberLines(quote, attrs, keys)[i]
  {
    forall i | 0 <= i < |keys|
      ensures '\n' !in MemberLines(quote, attrs, keys)[i]
    {
      MemberLineSingle(quote, keys[i], attrs[keys[i]], i == |keys| - 1);
    }
  }

  /** Member lines free of line breaks stay free of them between the two
      braces. */
  lemma BracedNoBreaks(members: seq<string>)
    requires forall i :: 0 <= i < |members| ==> '\n' !in members[i]
    ensures forall i :: 0 <= i < |members| + 2 ==> '\n' !in (["{"] + members + ["}"])[i]
  {
    var head := ["{"] + members;
    var lines := head + ["}"];
    assert '\n' !in "{" && '\n' !in "}";
    forall i | 0 <= i < |lines|
      ensures '\n' !in lines[i]
    {
      if i == 0 {
        assert lines[i] == "{";
      } else if i == |lines| - 1 {
        assert lines[i] == "}";
      } else {
        assert lines[i] == head[i] == members[i - 1];
      }
    }
  }

  /** Member lines free of line breaks between the two braces split back
      into the same lines. */
  lemma BracedSplits(members: seq<string>)
    requires forall i :: 0 <= i < |members| ==> '\n' !in members[i]
    ensures Split(Join('\n', ["{"] + members + ["}"]), '\n') == ["{"] + members + ["}"]
  {
    BracedNoBreaks(members);
    SplitJoin(["{"] + members + ["}"], '\n');
  }

  /** With a single-line string encoding, the dump's lines are exactly
      `DumpLines`. */
  lemma DumpSplits(attrs: map<string, string>, quote: string -> string)
    requires SingleLine(quote)
    ensures Split(Dump(attrs, quote), '\n') == DumpLines(attrs, quote)
  {
    BraceFacts();
    if |attrs| == 0 {
      SplitWithoutSeparator("{}", '\n');
    } else {
      var keys := SortedKeys(attrs.Keys);
      MemberLinesSingle(quote, attrs, keys);
      BracedSplits(MemberLines(quote, attrs, keys));
    }
  }

  /** The lines, each prefixed by two spaces. */
  function Indented(lines: seq<string>): (r: seq<string>)
    ensures |r| == |lines|
    ensures forall i :: 0 <= i < |lines| ==> r[i] == "  " + lines[i]
  {
    if lines == [] then [] else [ "  " + lines[0]] + Indented(lines[1..])
  }

  lemma IndentedSnoc(lines: seq<string>, line: string)
    ensures Indented(lines + [line]) == Indented(lines) + ["  " + line]
  {
  }

  /** What `_message_attrs_repr` computes from the dump: every line indented
      by two spaces, the lines joined again and the leading whitespace
      stripped. */
  function AttrsRepr(dump: string): (r: string)
    ensures r == [] || !IsSpace(r[0])
  {
    LStrip(Join('\n', Indented(Split(dump, '\n'))))
  }

  predicate NonBlank(s: string)
  {
    exists i :: 0 <= i < |s| && !IsSpace(s[i])
  }

  /** Two leading spaces are stripped like any other. */
  lemma LStripIndent(line: string)
    ensures LStrip("  " + line) == LStrip(line)
  {
    assert IsSpace(' ');
    assert "  " + line == [' '] + ([' '] + line);
    LStripCons(' ', [' '] + line);
    LStripCons(' ', line);
  }

  /** Stripping keeps a suffix, so it adds no line break. */
  lemma LStripSingleLine(line: string)
    requires '\n' !in line
    ensures '\n' !in LStrip(line)
  {
    var r := LStrip(line);
    assert r == line[|line| - |r|..];
  }

  /** Indenting adds no line break. */
  lemma IndentedSingleLines(lines: seq<string>)
    requires forall i :: 0 <= i < |lines| ==> '\n' !in lines[i]
    ensures forall i :: 0 <= i < |lines| ==> '\n' !in Indented(lines)[i]
  {
  }

  /** The joined indented lines, with the first one split off. */
  lemma JoinIndentedHead(lines: seq<string>)
    requires |lines| > 1
    ensures Join('\n', Indented(lines)) == "  " + lines[0] + "\n" + Join('\n', Indented(lines[1..]))
  {
    assert Indented(lines)[1..] == Indented(lines[1..]);
  }

  /** A non-blank first line keeps whatever follows it when the indented
      text is stripped. */
  lemma LStripIndentedHead(first: string, rest: string)
    requires NonBlank(first)
    ensures LStrip("  " + first + "\n" + rest) == LStrip(first) + "\n" + rest
  {
    var i :| 0 <= i < |first| && !IsSpace(first[i]);
    assert !IsSpace(("  " + first)[i + 2]);
    LStripConcat("  " + first, "\n" + rest);
    LStripIndent(first);
    ConcatAssoc("  " + first, "\n", rest);
    ConcatAssoc(LStrip(first), "\n", rest);
  }

  /** Joining a first piece in front of at least one more. */
  lemma JoinCons(first: string, rest: seq<string>)
    requires rest != []
    ensures Join('\n', [first] + rest) == first + "\n" + Join('\n', rest)
  {
    assert ([first] + rest)[0] == first && ([first] + rest)[1..] == rest;
  }

  /** A single indented line loses its indentation when stripped. */
  lemma StripIndentedSingle(line: string)
    ensures LStrip(Join('\n', Indented([line]))) == Join('\n', [LStrip(line)])
  {
    assert Indented([line]) == ["  " + line];
    LStripIndent(line);
  }

  /** Several indented lines: only the first loses its indentation, as long
      as it is not blank. */
  lemma StripIndentedMany(lines: seq<string>)
    requires |lines| > 1 && NonBlank(lines[0])
    ensures LStrip(Join('\n', Indented(lines))) == Join('\n', [LStrip(lines[0])] + Indented(lines[1..]))
  {
    var rest := Join('\n', Indented(lines[1..]));
    JoinIndentedHead(lines);
    LStripIndentedHead(lines[0], rest);
    JoinCons(LStrip(lines[0]), Indented(lines[1..]));
  }

  /** With a non-blank first line, the repr is the dump's first line
      stripped, then every later line indented, joined by line breaks. */
  lemma AttrsReprJoin(dump: string)
    requires NonBlank(Split(dump, '\n')[0])
    ensures var lines := Split(dump, '\n');
      AttrsRepr(dump) == Join('\n', [LStrip(lines[0])] + Indented(lines[1..]))
  {
    var lines := Split(dump, '\n');
    if |lines| == 1 {
      StripIndentedSingle(lines[0]);
      assert [LStrip(lines[0])] + Indented(lines[1..]) == [LStrip(lines[0])];
      assert lines == [lines[0]];
    } else {
      StripIndentedMany(lines);
    }
  }

  /** When the dump's first line holds a non-space character, the repr has as
      many lines as the dump: the first is the dump's first line without its
      leading whitespace and every later one is two spaces and the
      corresponding dump line. */
  lemma AttrsReprLines(dump: string)
    requires NonBlank(Split(dump, '\n')[0])
    ensures var lines := Split(dump, '\n');
      Split(AttrsRepr(dump), '\n') == [LStrip(lines[0])] + Indented(lines[1..])
  {
    var lines := Split(dump, '\n');
    var pieces := [LStrip(lines[0])] + Indented(lines[1..]);
    AttrsReprJoin(dump);
    LStripSingleLine(lines[0]);
    IndentedSingleLines(lines[1..]);
    assert forall i :: 0 <= i < |pieces| ==> '\n' !in pieces[i] by {
      forall i | 0 <= i < |pieces|
        ensures '\n' !in pieces[i]
      {
        if i > 0 {
          assert pieces[i] == Indented(lines[1..])[i - 1];
        }
      }
    }
    SplitJoin(pieces, '\n');
  }

  /** An empty attribute map is shown as `{}`. */
  lemma AttrsReprEmpty(attrs: map<string, string>, quote: string -> string)
    requires |attrs| == 0
    ensures AttrsRepr(Dump(attrs, quote)) == "{}"
  {
    BraceFacts();
    assert DumpLines(attrs, quote) == ["{}"];
    assert Dump(attrs, quote) == "{}";
    SplitWithoutSeparator("{}", '\n');
    StripIndentedSingle("{}");
  }

  /** A dump laid out as an opening brace, member lines and a closing brace
      is shown with its first brace in place, every later line indented by
      two more spaces. */
  lemma ReprOfBraced(dump: string, members: seq<string>)
    requires Split(dump, '\n') == ["{"] + members + ["}"]
    ensures Split(AttrsRepr(dump), '\n') == ["{"] + Indented(members) + ["  }"]
  {
    var lines := Split(dump, '\n');
    OpenBrace();
    ConcatAssoc(["{"], members, ["}"]);
    assert lines == ["{"] + (members + ["}"]);
    assert lines[0] == "{" && lines[1..] == members + ["}"];
    AttrsReprLines(dump);
    IndentedSnoc(members, "}");
    ConcatAssoc(["{"], Indented(members), ["  }"]);
  }

  /** The attribute repr of a non-empty attribute map: an opening brace, each
      member in key order on its own line indented by four spaces, and a
      closing brace indented by two, as it sits inside the message repr. */
  lemma AttrsReprOfDump(attrs: map<string, string>, quote: string -> string)
    requires SingleLine(quote) && |attrs| > 0
    ensures Split(AttrsRepr(Dump(attrs, quote)), '\n') ==
      ["{"] + Indented(MemberLines(quote, attrs, SortedKeys(attrs.Keys))) + ["  }"]
  {
    var members := MemberLines(quote, attrs, SortedKeys(attrs.Keys));
    assert DumpLines(attrs, quote) == ["{"] + members + ["}"];
    DumpSplits(attrs, quote);
    ReprOfBraced(Dump(attrs, quote), members);
  }

  /** `_MESSAGE_REPR.format(data, ordering_key, attrs)`, given the `repr` of
      the data and of the ordering key: the five lines of the template with
      the three values filled in. */
  function Render(dataRepr: string, keyRepr: string, attrsRepr: string): string
  {
    "Message {" + "\n" + ("  data: " + dataRepr) + "\n" + ("  ordering_key: " + keyRepr) + "\n" +
    ("  attributes: " + attrsRepr) + "\n" + "}"
  }

  /** The fixed parts of the template hold no line break. */
  lemma TemplateLabels()
    ensures '\n' !in "Message {" && '\n' !in "  data: " && '\n' !in "  ordering_key: " && '\n' !in "}"
  {
  }

  lemma NoBreakConcat(a: string, b: string)
    requires '\n' !in a && '\n' !in b
    ensures '\n' !in a + b
  {
  }

  /** The template is filled in the order data, ordering key, attributes:
      line two carries the whole data repr, line three the ordering key, the
      attributes start on line four and may run over several lines, and a
      closing brace ends the text. */
  lemma RenderLines(dataRepr: string, keyRepr: string, attrsRepr: string)
    requires '\n' !in dataRepr && '\n' !in keyRepr
    ensures Split(Render(dataRepr, keyRepr, attrsRepr), '\n') ==
      ["Message {"] + ["  data: " + dataRepr] + ["  ordering_key: " + keyRepr] +
      Split("  attributes: " + attrsRepr, '\n') + ["}"]
  {
    var l0, l1, l2, l3 := "Message {", "  data: " + dataRepr, "  ordering_key: " + keyRepr, "  attributes: " + attrsRepr;
    var a2 := l0 + "\n" + l1;
    var a1 := a2 + "\n" + l2;
    var a0 := a1 + "\n" + l3;
    TemplateLabels();
    NoBreakConcat("  data: ", dataRepr);
    NoBreakConcat("  ordering_key: ", keyRepr);
    SplitWithoutSeparator(l0, '\n');
    SplitWithoutSeparator(l1, '\n');
    SplitWithoutSeparator(l2, '\n');
    SplitWithoutSeparator("}", '\n');
    SplitConcat(l0, l1, '\n');
    SplitConcat(a2, l2, '\n');
    SplitConcat(a1, l3, '\n');
    SplitConcat(a0, "}", '\n');
  }

  lemma AttributesLabel()
    ensures '\n' !in "  attributes: " && "  attributes: " + "{" == "  attributes: {"
  {
  }

  /** The whole repr of a message with attributes, line by line: the header,
      the data and the ordering key, the attributes label with the opening
      brace, one line per attribute in key order indented by four spaces, the
      attributes' closing brace indented by two, and the message's closing
      brace. */
  lemma MessageReprLines(dataRepr: string, keyRepr: string, attrs: map<string, string>, quote: string -> string)
    requires '\n' !in dataRepr && '\n' !in keyRepr && SingleLine(quote) && |attrs| > 0
    ensures Split(Render(dataRepr, keyRepr, AttrsRepr(Dump(attrs, quote))), '\n') ==
      ["Message {"] + ["  data: " + dataRepr] + ["  ordering_key: " + keyRepr] + ["  attributes: {"] +
      Indented(MemberLines(quote, attrs, SortedKeys(attrs.Keys))) + ["  }"] + ["}"]
  {
    var a := AttrsRepr(Dump(attrs, quote));
    var members := Indented(MemberLines(quote, attrs, SortedKeys(attrs.Keys)));
    var head := ["Message {"] + ["  data: " + dataRepr] + ["  ordering_key: " + keyRepr];
    RenderLines(dataRepr, keyRepr, a);
    AttrsReprOfDump(attrs, quote);
    AttributesLabel();
    SplitPrefix("  attributes: ", a, '\n');
    var tail := Split("  attributes: " + a, '\n');
    var sa := Split(a, '\n');
    ConcatAssoc(["{"], members, ["  }"]);
    assert sa == ["{"] + (members + ["  }"]);
    assert sa[0] == "{" && sa[1..] == members + ["  }"];
    assert tail == ["  attributes: {"] + (members + ["  }"]);
    ConcatAssoc(["  attributes: {"], members, ["  }"]);
    ConcatAssoc(head, ["  attributes: {"] + members, ["  }"]);
    ConcatAssoc(head, ["  attributes: {"], members);
  }

  /** `_VerboseMessage`: a wrapper around a received message with the same
      `attributes`. */
  class VerboseMessage {
    const message: Message
    const attributes: map<string, string>

    constructor (message: Message)
      ensures this.message == message && attributes == message.attributes
    {
      this.message := message;
      attributes := message.attributes;
    }

    /** `_message_attrs_repr()`: the attribute dump re-indented line by line,
        joined and left-stripped; `dumps` is the JSON encoder call, which
        `Dump` describes. */
    method MessageAttrsRepr(dumps: map<string, string> -> string) returns (r: string)
      ensures r == AttrsRepr(dumps(attributes))
    {
      var lines := Split(dumps(attributes), '\n');
      var indented: seq<string> := [];
      var i := 0;
      while i < |lines|
        invariant 0 <= i <= |lines|
        invariant indented == Indented(lines[..i])
      {
        IndentedSnoc(lines[..i], lines[i]);
        assert lines[..i + 1] == lines[..i] + [lines[i]];
        indented := indented + ["  " + lines[i]];
        i := i + 1;
      }
      assert lines[..i] == lines;
      r := LStrip(Join('\n', indented));
    }

    /** `__repr__()`: `reprBytes` and `reprStr` are Python's `repr` of the
        raw payload and of the ordering key. */
    method Repr(reprBytes: seq<byte> -> string, reprStr: string -> string, dumps: map<string, string> -> string)
      returns (r: string)
      ensures r == Render(reprBytes(message.data), reprStr(message.orderingKey), AttrsRepr(dumps(attributes)))
    {
      var attrs := MessageAttrsRepr(dumps);
      r := Render(reprBytes(message.data), reprStr(message.orderingKey), attrs);
    }
  }

  /** The arguments `post_process_message_failure` hands to the logging
      middleware's hook. */
  datatype FailureCall = FailureCall(subscription: Subscription, exception: Exception, startTime: real, message: VerboseMessage)

  class VerboseLoggingMiddleware {
    constructor ()
    {
    }

    /** `post_process_message_failure(subscription, exception, start_time,
        message)`: the parent hook receives the same subscription, exception
        and start time, and a new wrapper around the message. */
    method PostProcessMessageFailure(subscription: Subscription, exception: Exception, startTime: real, message: Message)
      returns (call: FailureCall)
      ensures call.subscription == subscription && call.exception == exception && call.startTime == startTime
      ensures fresh(call.message) && call.message.message == message
      ensures call.message.attributes == message.attributes
    {
      var wrapped := new VerboseMessage(message);
      call := FailureCall(subscription, exception, startTime, wrapped);
    }
  }
}
