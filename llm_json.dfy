/** How the persona system turns a language-model reply into a JSON object:
    strip the reply (an empty one becomes "{}"), delete Markdown code fences
    with the substitution `re.sub(r'```json\s*|\s*```', '', s)`, keep the
    span from the first `{` to the last `}` (`re.search(r'\{.*\}', s,
    re.DOTALL)`, or the whole text when it finds nothing), then decode.

    The model service and the JSON decoder are not modelled: a reply is a
    parameter, and decoding is a function passed in that tells text that is
    not JSON from JSON that is not an object from a decoded object. */
module LlmJson {
  import opened Wrappers
  import opened Text

  /** What asking the model gave: an exception, or the reply's text. */
  datatype LlmReply = Raised | Replied(text: string)

  /** A decoded JSON object, seen through the conversions its reader applies
      after `.get(key, default)`: `strings` holds the `str()` of a field,
      `lists` a field read as a list of strings, `numbers` the `float()` of
      a field. `mistyped` holds the fields whose value the reader's
      conversion rejects: text that is not a number under `float()`, or a
      number or a list with a non-string item under `', '.join`. */
  datatype JsonObject = JsonObject(
    strings: map<string, string>,
    lists: map<string, seq<string>>,
    numbers: map<string, real>,
    mistyped: set<string>)

  /** `json.loads`: a decoding error, a value that is not an object, or an object. */
  datatype Decoded = NotJson | NotAnObject | Parsed(obj: JsonObject)

  const EmptyObject := JsonObject(map[], map[], map[], {})

  /** The object when every field in `keys` converts; nothing when the
      conversion of one of them raises. */
  function Converted(o: Option<JsonObject>, keys: set<string>): (r: Option<JsonObject>)
    ensures r.Some? <==> o.Some? && o.value.mistyped !! keys
    ensures r.Some? ==> r == o
  {
    if o.Some? && o.value.mistyped !! keys then o else None
  }

  /** `obj.get(key, default)` for a string value. */
  function GetStr(o: JsonObject, key: string, default: string): (r: string)
    ensures key !in o.strings ==> r == default
    ensures key in o.strings ==> r == o.strings[key]
  {
    if key in o.strings then o.strings[key] else default
  }

  /** `obj.get(key, [])` for a list value. */
  function GetList(o: JsonObject, key: string): (r: seq<string>)
    ensures key !in o.lists ==> r == []
    ensures key in o.lists ==> r == o.lists[key]
  {
    if key in o.lists then o.lists[key] else []
  }

  /** `obj.get(key, default)` for a number. */
  function GetNum(o: JsonObject, key: string, default: real): (r: real)
    ensures key !in o.numbers ==> r == default
    ensures key in o.numbers ==> r == o.numbers[key]
  {
    if key in o.numbers then o.numbers[key] else default
  }

  // ---------------------------------------------------------------------
  // Cleaning a reply

  /** The stripped reply, with "{}" in place of an empty one. */
  function StripOrEmpty(text: string): (r: string)
    ensures r != []
    ensures AllSpace(text) ==> r == "{}"
    ensures !AllSpace(text) ==> r == Strip(text)
  {
    StripEmptyIff(text);
    if Strip(text) == [] then "{}" else Strip(text)
  }

  /** `re.sub(r'```json\s*|\s*```', '', s)`. Scanning from the left, a
      "```json" and the whitespace after it is deleted; otherwise a
      whitespace run (possibly empty) that ends in "```" is deleted;
      otherwise the character is kept and the scan moves on. */
  function RemoveFences(s: string): (r: string)
    ensures |r| <= |s|
    decreases |s|
  {
    if s == [] then []
    else if OpensFence(s) then RemoveFences(LStrip(s[7..]))
    else if ClosesFence(LStrip(s)) then RemoveFences(LStrip(s)[3..])
    else [s[0]] + RemoveFences(s[1..])
  }

  /** `s` starts with "```json". */
  predicate OpensFence(s: string) {
    |s| >= 7 && s[0] == '`' && s[1] == '`' && s[2] == '`'
    && s[3] == 'j' && s[4] == 's' && s[5] == 'o' && s[6] == 'n'
  }

  /** `s` starts with "```". */
  predicate ClosesFence(s: string) {
    |s| >= 3 && s[0] == '`' && s[1] == '`' && s[2] == '`'
  }

  /** A scan step at a character that is not a backtick, with no fence at
      the end of the whitespace run it starts, keeps the character. */
  lemma FenceStepKeep(s: string)
    requires s != [] && s[0] != '`'
    requires LStrip(s) == [] || LStrip(s)[0] != '`'
    ensures RemoveFences(s) == [s[0]] + RemoveFences(s[1..])
  {
  }

  /** The first character left by `lstrip` is a character of the text. */
  lemma LStripHead(t: string)
    requires LStrip(t) != []
    ensures LStrip(t)[0] in t
  {
    assert LStrip(t)[0] == t[|t| - |LStrip(t)|];
  }

  /** A reply without backticks passes the fence removal unchanged. */
  lemma {:induction false} RemoveFencesPlain(t: string)
    requires '`' !in t
    ensures RemoveFences(t) == t
  {
    if t != [] {
      if LStrip(t) != [] {
        LStripHead(t);
      }
      FenceStepKeep(t);
      RemoveFencesPlain(t[1..]);
      assert [t[0]] + t[1..] == t;
    }
  }

  /** A scan step where no opening fence starts but a whitespace run ending
      in "```" does deletes that run and the fence. */
  lemma FenceStepClose(s: string)
    requires s != [] && (s[0] != '`' || |s| < 7)
    requires ClosesFence(LStrip(s))
    ensures RemoveFences(s) == RemoveFences(LStrip(s)[3..])
  {
  }

  /** The closing fence alone is deleted. */
  lemma ClosingFenceAlone()
    ensures RemoveFences("```") == []
  {
    var s := "```";
    LStripNonSpace(s);
    FenceStepClose(s);
    assert s[3..] == [];
  }

  /** Whitespace followed by the closing fence is deleted. */
  lemma ClosingAfterSpace(t: string)
    requires t != [] && AllSpace(t)
    ensures RemoveFences(t + "```") == []
  {
    var s := t + "```";
    LStripAppend(t, "```");
    LStripNonSpace("```");
    assert s[0] == t[0];
    FenceStepClose(s);
    assert LStrip(s)[3..] == [];
  }

  /** A closing fence after backtick-free text is deleted together with the
      whitespace before it. */
  lemma {:induction false} RemoveFencesClosing(t: string)
    requires '`' !in t
    ensures RemoveFences(t + "```") == RStrip(t)
  {
    if t == [] {
      assert t + "```" == "```";
      ClosingFenceAlone();
    } else if AllSpace(t) {
      ClosingAfterSpace(t);
      RStripUnique(t, 0);
    } else {
      ClosingAfterText(t);
      RemoveFencesClosing(t[1..]);
      RStripCons(t);
    }
  }

  /** Before a closing fence, a character of text that is not all
      whitespace is kept. */
  lemma ClosingAfterText(t: string)
    requires '`' !in t && !AllSpace(t)
    ensures RemoveFences(t + "```") == [t[0]] + RemoveFences(t[1..] + "```")
  {
    var s := t + "```";
    LStripBeforeFence(t);
    assert s[0] == t[0];
    FenceStepKeep(s);
    assert s[1..] == t[1..] + "```";
  }

  /** The whitespace run at the start of such a text ends before the fence. */
  lemma LStripBeforeFence(t: string)
    requires '`' !in t && !AllSpace(t)
    ensures LStrip(t + "```") != [] && LStrip(t + "```")[0] != '`'
  {
    var l := LStrip(t);
    assert LStrip(t + "```") == l + "```" by {
      LStripAppend(t, "```");
    }
    assert l != [] && l[0] != '`' by {
      StripEmptyIff(t);
      LStripHead(t);
    }
    assert (l + "```")[0] == l[0];
  }

  /** The opening fence and the whitespace after it are deleted. */
  lemma OpeningFence(rest: string)
    ensures RemoveFences("```json" + rest) == RemoveFences(LStrip(rest))
  {
    var s := "```json" + rest;
    assert forall k :: 0 <= k < 7 ==> s[k] == "```json"[k];
    assert OpensFence(s);
    assert s[7..] == rest;
  }

  /** A reply fenced as ```json ... ``` around backtick-free text loses both
      fences and the whitespace next to them. */
  lemma FencedReply(body: string)
    requires '`' !in body
    ensures RemoveFences("```json" + body + "```") == Strip(body)
  {
    var rest := body + "```";
    calc {
      RemoveFences("```json" + body + "```");
      { assert "```json" + body + "```" == "```json" + rest; }
      RemoveFences("```json" + rest);
      { OpeningFence(rest); }
      RemoveFences(LStrip(rest));
      { FencedBody(body); }
      Strip(body);
    }
  }

  lemma FencedBody(body: string)
    requires '`' !in body
    ensures RemoveFences(LStrip(body + "```")) == Strip(body)
  {
    LStripAppend(body, "```");
    if AllSpace(body) {
      StripEmptyIff(body);
      assert LStrip("```") == "```";
      ClosingFenceAlone();
    } else {
      LStripNoTick(body);
      RemoveFencesClosing(LStrip(body));
    }
  }

  lemma LStripNoTick(t: string)
    requires '`' !in t
    ensures '`' !in LStrip(t)
  {
    var l := LStrip(t);
    assert forall k :: 0 <= k < |l| ==> l[k] == t[|t| - |l| + k];
  }

  /** Some `{` comes before some `}`. */
  predicate HasBracePair(s: string) {
    exists i, j :: 0 <= i < j < |s| && s[i] == '{' && s[j] == '}'
  }

  /** The position of the first `c` in `s`. */
  function FirstIndex(s: string, c: char): (r: Option<nat>)
    ensures r.Some? ==> r.value < |s| && s[r.value] == c && c !in s[..r.value]
    ensures r.None? ==> c !in s
  {
    if s == [] then None
    else if s[0] == c then Some(0)
    else match FirstIndex(s[1..], c)
      case None => None
      case Some(k) =>
        assert s[..k + 1] == [s[0]] + s[1..][..k];
        Some(k + 1)
  }

  /** The position of the last `c` in `s`. */
  function LastIndex(s: string, c: char): (r: Option<nat>)
    ensures r.Some? ==> r.value < |s| && s[r.value] == c && c !in s[r.value + 1..]
    ensures r.None? ==> c !in s
  {
    if s == [] then None
    else if s[|s| - 1] == c then Some(|s| - 1)
    else match LastIndex(s[..|s| - 1], c)
      case None =>
        assert s == s[..|s| - 1] + [s[|s| - 1]];
        None
      case Some(k) =>
        assert s[k + 1..] == s[..|s| - 1][k + 1..] + [s[|s| - 1]];
        Some(k)
  }

  /** `re.search(r'\{.*\}', s, re.DOTALL)`: from the first `{` through the
      last `}`, when a `}` follows the first `{`; otherwise the whole text. */
  function ExtractObject(s: string): (r: string)
    ensures HasBracePair(s) ==>
      exists i :: 0 <= i < i + 1 < i + |r| <= |s| && r == s[i..i + |r|]
        && r[0] == '{' && r[|r| - 1] == '}'
        && '{' !in s[..i] && '}' !in s[i + |r|..]
    ensures !HasBracePair(s) ==> r == s
  {
    match (FirstIndex(s, '{'), LastIndex(s, '}'))
    case (Some(i), Some(j)) =>
      if i < j then
        assert s[i..j + 1][0] == s[i] && s[i..j + 1][j - i] == s[j];
        s[i..j + 1]
      else
        assert !HasBracePair(s) by {
          assert forall a :: 0 <= a < i ==> s[a] != '{' by {
            assert forall a :: 0 <= a < i ==> s[a] == s[..i][a];
          }
          assert forall b :: j < b < |s| ==> s[b] != '}' by {
            assert forall b :: j < b < |s| ==> s[b] == s[j + 1..][b - j - 1];
          }
        }
        s
    case _ => s
  }

  lemma {:induction false} FirstIndexIs(s: string, c: char, i: nat)
    requires i < |s| && s[i] == c && c !in s[..i]
    ensures FirstIndex(s, c) == Some(i)
  {
    if i > 0 {
      assert s[0] == s[..i][0];
      assert s[1..][..i - 1] == s[..i][1..];
      FirstIndexIs(s[1..], c, i - 1);
    }
  }

  lemma {:induction false} LastIndexIs(s: string, c: char, j: nat)
    requires j < |s| && s[j] == c && c !in s[j + 1..]
    ensures LastIndex(s, c) == Some(j)
  {
    if j < |s| - 1 {
      assert s[|s| - 1] == s[j + 1..][|s| - 2 - j];
      assert s[..|s| - 1][j + 1..] == s[j + 1..|s| - 1];
      assert s[j + 1..|s| - 1] == s[j + 1..][..|s| - 2 - j];
      LastIndexIs(s[..|s| - 1], c, j);
    }
  }

  /** An object surrounded by prose is cut out when the prose before it has
      no `{` and the prose after it no `}`. */
  lemma ExtractAround(pre: string, obj: string, post: string)
    requires |obj| >= 2 && obj[0] == '{' && obj[|obj| - 1] == '}'
    requires '{' !in pre && '}' !in post
    ensures ExtractObject(pre + obj + post) == obj
  {
    var s := pre + obj + post;
    var i, j := |pre|, |pre| + |obj| - 1;
    assert s[..i] == pre;
    assert s[i] == '{';
    FirstIndexIs(s, '{', i);
    assert s[j] == '}';
    assert s[j + 1..] == post;
    LastIndexIs(s, '}', j);
    assert s[i..j + 1] == obj;
  }

  /** Extraction keeps an extracted object as it is. */
  lemma ExtractIdempotent(s: string)
    ensures ExtractObject(ExtractObject(s)) == ExtractObject(s)
  {
    if HasBracePair(s) {
      var r := ExtractObject(s);
      ExtractAround([], r, []);
      assert [] + r + [] == r;
    }
  }

  /** The text handed to the JSON decoder. */
  function Clean(text: string): string {
    ExtractObject(RemoveFences(StripOrEmpty(text)))
  }

  /** A blank reply is decoded as the empty object's text "{}". */
  lemma CleanBlank(text: string)
    requires AllSpace(text)
    ensures Clean(text) == "{}"
  {
    assert RemoveFences("{}") == "{}" by {
      RemoveFencesPlain("{}");
    }
    ExtractAround([], "{}", []);
    assert [] + "{}" + [] == "{}";
  }

  /** A reply that is exactly one fenced object (with any whitespace inside
      the fences) is cleaned down to the object. */
  lemma CleanFenced(pre: string, obj: string, post: string)
    requires |obj| >= 2 && obj[0] == '{' && obj[|obj| - 1] == '}' && '`' !in obj
    requires AllSpace(pre) && AllSpace(post)
    ensures Clean("```json" + pre + obj + post + "```") == obj
  {
    var body := pre + obj + post;
    var text := "```json" + body + "```";
    calc {
      Clean("```json" + pre + obj + post + "```");
      { assert "```json" + pre + obj + post + "```" == text; }
      Clean(text);
      ExtractObject(RemoveFences(StripOrEmpty(text)));
      { FencedUnstripped(body); }
      ExtractObject(RemoveFences(text));
      { SpaceNoTick(pre); SpaceNoTick(post); FencedReply(body); StripAround(pre, obj, post); }
      ExtractObject(obj);
      { ExtractWhole(obj); }
      obj;
    }
  }

  /** A fenced reply neither starts nor ends with whitespace. */
  lemma FencedUnstripped(body: string)
    ensures StripOrEmpty("```json" + body + "```") == "```json" + body + "```"
  {
    var text := "```json" + body + "```";
    assert text[0] == '`' && text[|text| - 1] == '`';
    StripUnchanged(text);
  }

  /** Text that is one object throughout is extracted whole. */
  lemma ExtractWhole(obj: string)
    requires |obj| >= 2 && obj[0] == '{' && obj[|obj| - 1] == '}'
    ensures ExtractObject(obj) == obj
  {
    ExtractAround([], obj, []);
    assert [] + obj + [] == obj;
  }

  lemma SpaceNoTick(s: string)
    requires AllSpace(s)
    ensures '`' !in s
  {
  }

  /** Text that neither starts nor ends with whitespace is its own strip. */
  lemma StripUnchanged(s: string)
    requires s != [] && !IsSpace(s[0]) && !IsSpace(s[|s| - 1])
    ensures !AllSpace(s) && Strip(s) == s
  {
    var i, j := StripSlice(s);
    assert s[i..j] == s;
  }

  /** Stripping whitespace around text that starts and ends with a
      non-space gives that text. */
  lemma StripAround(pre: string, obj: string, post: string)
    requires obj != [] && !IsSpace(obj[0]) && !IsSpace(obj[|obj| - 1])
    requires AllSpace(pre) && AllSpace(post)
    ensures Strip(pre + obj + post) == obj
  {
    var body := pre + obj + post;
    var i, j := StripSlice(body);
    assert body[|pre|] == obj[0] && body[|pre| + |obj| - 1] == obj[|obj| - 1];
    assert i == |pre| && j == |pre| + |obj|;
    assert body[i..j] == obj;
  }

  /** What the persona system makes of a reply: `None` when the call or the
      reading of the object raised, which abandons the step; the fallback
      record when the cleaned text is not JSON; the decoded object otherwise. */
  function ObjectOf(reply: LlmReply, decode: string -> Decoded, fallback: JsonObject): (r: Option<JsonObject>)
    ensures reply.Raised? ==> r.None?
    ensures reply.Replied? && decode(Clean(reply.text)).NotJson? ==> r == Some(fallback)
    ensures reply.Replied? && decode(Clean(reply.text)).NotAnObject? ==> r.None?
    ensures reply.Replied? && decode(Clean(reply.text)).Parsed? ==> r == Some(decode(Clean(reply.text)).obj)
  {
    match reply
    case Raised => None
    case Replied(text) =>
      match decode(Clean(text))
      case NotJson => Some(fallback)
      case NotAnObject => None
      case Parsed(o) => Some(o)
  }

  /** A blank reply is read as the empty object, whatever the fallback. */
  lemma BlankReplyObject(text: string, decode: string -> Decoded, fallback: JsonObject)
    requires AllSpace(text) && decode("{}") == Parsed(EmptyObject)
    ensures ObjectOf(Replied(text), decode, fallback) == Some(EmptyObject)
  {
    CleanBlank(text);
  }

  /** A reply fencing one object yields what the object's own text decodes
      to: the object itself, or the fallback when that text is not JSON. */
  lemma FencedReplyObject(pre: string, obj: string, post: string, decode: string -> Decoded,
                          fallback: JsonObject)
    requires |obj| >= 2 && obj[0] == '{' && obj[|obj| - 1] == '}' && '`' !in obj
    requires AllSpace(pre) && AllSpace(post)
    ensures var r := ObjectOf(Replied("```json" + pre + obj + post + "```"), decode, fallback);
            && (decode(obj).Parsed? ==> r == Some(decode(obj).obj))
            && (decode(obj).NotJson? ==> r == Some(fallback))
            && (decode(obj).NotAnObject? ==> r.None?)
  {
    CleanFenced(pre, obj, post);
  }
}
