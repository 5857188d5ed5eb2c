// utils/validators.py: the input validators and the HTML sanitiser.
//
// The regular expressions are anchored with `^...$` and applied with
// re.match, so `$` also matches just before one final "\n": the model keeps
// that.  The sanitiser's two lazy re.sub passes are modelled as the left-to-right
// scans the regex engine performs.
module Validators {
  import opened Common
  import opened Text

  // ---------------------------------------------------------------------------
  // Anchored character-class regexes

  predicate SymbolChar(c: char) { IsUpper(c) || IsDigit(c) }

  predicate ApiKeyChar(c: char) { IsUpper(c) || IsLower(c) || IsDigit(c) }

  /** Every character of w is an upper-case ASCII letter or a digit, and 2 <= |w| <= 20. */
  predicate SymbolWord(w: string)
  {
    2 <= |w| <= 20 && forall i :: 0 <= i < |w| ==> SymbolChar(w[i])
  }

  predicate ApiKeyWord(w: string)
  {
    |w| == 16 && forall i :: 0 <= i < |w| ==> ApiKeyChar(w[i])
  }

  /** The text in front of the end that Python's `$` accepts: all of s, or s without one final newline. */
  function DollarCandidates(s: string): (r: seq<string>)
    ensures s in r
    ensures forall w :: w in r ==> w == s || (|s| >= 1 && s[|s| - 1] == '\n' && w == s[..|s| - 1])
  {
    if |s| >= 1 && s[|s| - 1] == '\n' then [s, s[..|s| - 1]] else [s]
  }

  /** validate_symbol */
  function ValidateSymbol(symbol: string): (r: bool)
    ensures r <==> exists w :: w in DollarCandidates(symbol) && SymbolWord(w)
    ensures r ==> 2 <= |symbol| <= 21
    ensures symbol == [] ==> !r
  {
    if symbol == [] then false
    else SymbolWord(symbol) || (symbol[|symbol| - 1] == '\n' && SymbolWord(symbol[..|symbol| - 1]))
  }

  /** Exactly the 2-to-20 character upper-case alphanumeric words pass, plus each of them with one trailing newline. */
  lemma ValidateSymbolCharacterisation(w: string)
    ensures ValidateSymbol(w) <==>
      (SymbolWord(w) || (|w| >= 1 && w[|w| - 1] == '\n' && SymbolWord(w[..|w| - 1])))
    ensures SymbolWord(w) ==> ValidateSymbol(w + "\n")
  {
    if SymbolWord(w) {
      assert (w + "\n")[..|w + "\n"| - 1] == w;
    }
  }

  lemma ValidateSymbolRejectsLowerCase(symbol: string, i: nat)
    requires i < |symbol| && IsLower(symbol[i])
    ensures !ValidateSymbol(symbol)
  {
    if |symbol| >= 1 && symbol[|symbol| - 1] == '\n' && i < |symbol| - 1 {
      assert symbol[..|symbol| - 1][i] == symbol[i];
    }
  }

  /** validate_symbols_list: the order-preserving sublist of valid symbols. */
  function ValidateSymbolsList(symbols: seq<string>): (r: seq<string>)
    ensures |r| <= |symbols|
    ensures forall i :: 0 <= i < |r| ==> ValidateSymbol(r[i])
    ensures forall s :: s in symbols && ValidateSymbol(s) ==> s in r
    ensures forall s :: s in r ==> s in symbols
    ensures (forall i :: 0 <= i < |symbols| ==> ValidateSymbol(symbols[i])) ==> r == symbols
  {
    if symbols == [] then []
    else
      FirstSplit(symbols);
      if ValidateSymbol(symbols[0]) then [symbols[0]] + ValidateSymbolsList(symbols[1..])
      else ValidateSymbolsList(symbols[1..])
  }

  /** r is obtained from s by deleting elements, keeping the order of the rest. */
  predicate IsSubsequence(r: seq<string>, s: seq<string>)
    decreases |s|
  {
    r == [] || (s != [] && ((r[0] == s[0] && IsSubsequence(r[1..], s[1..])) || IsSubsequence(r, s[1..])))
  }

  lemma {:induction false} ValidateSymbolsListKeepsOrder(symbols: seq<string>)
    ensures IsSubsequence(ValidateSymbolsList(symbols), symbols)
  {
    if symbols != [] {
      ValidateSymbolsListKeepsOrder(symbols[1..]);
      var r := ValidateSymbolsList(symbols);
      if ValidateSymbol(symbols[0]) {
        assert r[0] == symbols[0] && r[1..] == ValidateSymbolsList(symbols[1..]);
      }
    }
  }

  /** The filter keeps each symbol as many times as the input holds it when it is valid, and drops every copy otherwise. */
  lemma {:induction false} ValidateSymbolsListCounts(symbols: seq<string>, s: string)
    ensures multiset(ValidateSymbolsList(symbols))[s] == if ValidateSymbol(s) then multiset(symbols)[s] else 0
  {
    if symbols != [] {
      var x, rest := symbols[0], symbols[1..];
      ValidateSymbolsListCounts(rest, s);
      FirstSplit(symbols);
      assert multiset(symbols) == multiset{x} + multiset(rest) by {
        assert symbols == [x] + rest;
      }
      var tail := ValidateSymbolsList(rest);
      if ValidateSymbol(x) {
        assert multiset([x] + tail) == multiset{x} + multiset(tail);
      }
    }
  }

  /** Filtering a concatenation filters each part on its own, so the result is the valid symbols in input order. */
  lemma {:induction false} ValidateSymbolsListAppend(a: seq<string>, b: seq<string>)
    ensures ValidateSymbolsList(a + b) == ValidateSymbolsList(a) + ValidateSymbolsList(b)
  {
    if a == [] {
      assert a + b == b;
    } else {
      assert (a + b)[0] == a[0] && (a + b)[1..] == a[1..] + b;
      ValidateSymbolsListAppend(a[1..], b);
    }
  }

  /** On one symbol the filter keeps it exactly when it is valid. */
  lemma ValidateSymbolsListSingle(s: string)
    ensures ValidateSymbolsList([s]) == if ValidateSymbol(s) then [s] else []
  {
    assert [s][1..] == [];
  }

  /** validate_api_key */
  function ValidateApiKey(apiKey: string): (r: bool)
    ensures r <==> exists w :: w in DollarCandidates(apiKey) && ApiKeyWord(w)
    ensures r ==> |apiKey| == 16 || |apiKey| == 17
  {
    if apiKey == [] then false
    else ApiKeyWord(apiKey) || (apiKey[|apiKey| - 1] == '\n' && ApiKeyWord(apiKey[..|apiKey| - 1]))
  }

  // ---------------------------------------------------------------------------
  // Dates

  /** The text matched by \d{4}-\d{2}-\d{2} (decimal digits read as ASCII). */
  predicate DateWord(w: string)
  {
    |w| == 10 && w[4] == '-' && w[7] == '-'
    && forall i :: 0 <= i < 10 && i != 4 && i != 7 ==> IsDigit(w[i])
  }

  predicate DateShaped(s: string)
  {
    exists w :: w in DollarCandidates(s) && DateWord(w)
  }

  /** Python's `a <= b` on str: lexicographic by code point, a prefix comes first. */
  predicate LexLe(a: string, b: string)
    decreases |a|
  {
    a == [] || (b != [] && (a[0] < b[0] || (a[0] == b[0] && LexLe(a[1..], b[1..]))))
  }

  /** validate_date_range */
  function ValidateDateRange(startDate: string, endDate: string): (r: bool)
    ensures r <==> DateShaped(startDate) && DateShaped(endDate) && LexLe(startDate, endDate)
  {
    if !DateShaped(startDate) || !DateShaped(endDate) then false
    else LexLe(startDate, endDate)
  }

  function Year(w: string): nat requires DateWord(w) { DigitsValue(w[0..4]) }
  function Month(w: string): nat requires DateWord(w) { DigitsValue(w[5..7]) }
  function Day(w: string): nat requires DateWord(w) { DigitsValue(w[8..10]) }

  /** Comparing two concatenations whose first parts have one length. */
  lemma {:induction false} LexLeAppend(a1: string, a2: string, b1: string, b2: string)
    requires |a1| == |b1|
    ensures LexLe(a1 + a2, b1 + b2) <==> (a1 == b1 && LexLe(a2, b2)) || (a1 != b1 && LexLe(a1, b1))
    decreases |a1|
  {
    if a1 == [] {
      assert a1 + a2 == a2 && b1 + b2 == b2;
    } else {
      var x, y := a1 + a2, b1 + b2;
      assert x[0] == a1[0] && y[0] == b1[0];
      assert x[1..] == a1[1..] + a2;
      assert y[1..] == b1[1..] + b2;
      LexLeAppend(a1[1..], a2, b1[1..], b2);
      assert a1 == [a1[0]] + a1[1..] && b1 == [b1[0]] + b1[1..];
    }
  }

  /** For digit strings of one length, the string order is the numeric order. */
  lemma {:induction false} LexLeDigits(a: string, b: string)
    requires |a| == |b| && AllDigits(a) && AllDigits(b)
    ensures LexLe(a, b) <==> DigitsValue(a) <= DigitsValue(b)
    ensures a == b <==> DigitsValue(a) == DigitsValue(b)
    decreases |a|
  {
    if a != [] {
      var n := |a|;
      var a', b' := a[..n - 1], b[..n - 1];
      LexLeDigits(a', b');
      assert a == a' + [a[n - 1]] && b == b' + [b[n - 1]];
      LexLeAppend(a', [a[n - 1]], b', [b[n - 1]]);
      assert LexLe([a[n - 1]], [b[n - 1]]) <==> a[n - 1] <= b[n - 1];
    }
  }

  /** On well-formed dates the string comparison is the calendar-field order (year, then month, then day). */
  lemma DateOrderIsFieldOrder(a: string, b: string)
    requires DateWord(a) && DateWord(b)
    ensures LexLe(a, b) <==>
      Year(a) < Year(b) || (Year(a) == Year(b) && (Month(a) < Month(b) || (Month(a) == Month(b) && Day(a) <= Day(b))))
  {
    assert a == a[0..4] + ("-" + (a[5..7] + ("-" + a[8..10])));
    assert b == b[0..4] + ("-" + (b[5..7] + ("-" + b[8..10])));
    LexLeDigits(a[0..4], b[0..4]);
    LexLeDigits(a[5..7], b[5..7]);
    LexLeDigits(a[8..10], b[8..10]);
    LexLeAppend(a[0..4], "-" + (a[5..7] + ("-" + a[8..10])), b[0..4], "-" + (b[5..7] + ("-" + b[8..10])));
    LexLeAppend("-", a[5..7] + ("-" + a[8..10]), "-", b[5..7] + ("-" + b[8..10]));
    LexLeAppend(a[5..7], "-" + a[8..10], b[5..7], "-" + b[8..10]);
    LexLeAppend("-", a[8..10], "-", b[8..10]);
  }

  /** No calendar check is made: month 13, day 99 passes. */
  lemma DateRangeAcceptsImpossibleDates()
    ensures ValidateDateRange("2024-13-99", "2024-13-99")
  {
    assert DateWord("2024-13-99");
    assert "2024-13-99" in DollarCandidates("2024-13-99");
  }

  // ---------------------------------------------------------------------------
  // Numbers and JSON

  /** validate_numeric_range; None stands for Python's None. */
  function ValidateNumericRange(value: Option<real>, minVal: real, maxVal: real): (r: bool)
    ensures r <==> value.Some? && minVal <= value.value <= maxVal
  {
    match value
    case None => false
    case Some(v) => minVal <= v && v <= maxVal
  }

  datatype Json =
    | JNull
    | JBool(b: bool)
    | JInt(i: int)
    | JFloat(f: real)
    | JString(s: string)
    | JArray(items: seq<Json>)
    | JObject(fields: map<string, Json>)

  /** One entry of a schema's "properties": its optional "type" name. */
  datatype PropertySchema = PropertySchema(typeName: Option<string>)

  /** The "required" and "properties" entries of a schema, each possibly absent. */
  datatype Schema = Schema(required: Option<seq<string>>, properties: Option<seq<(string, PropertySchema)>>)

  /** isinstance(v, type_map[t]); None when t is not in type_map (no check is made). */
  function InstanceOf(v: Json, typeName: string): Option<bool>
  {
    if typeName == "string" then Some(v.JString?)
    else if typeName == "integer" then Some(v.JInt? || v.JBool?)
    else if typeName == "number" then Some(v.JInt? || v.JFloat? || v.JBool?)
    else if typeName == "boolean" then Some(v.JBool?)
    else if typeName == "array" then Some(v.JArray?)
    else if typeName == "object" then Some(v.JObject?)
    else None
  }

  /** The field has a value other than null whose mapped type it fails. */
  predicate WrongType(data: map<string, Json>, field: string, p: PropertySchema)
  {
    field in data && data[field] != JNull && p.typeName.Some?
    && InstanceOf(data[field], p.typeName.value) == Some(false)
  }

  function AllRequiredPresent(data: map<string, Json>, required: seq<string>): (r: bool)
    ensures r <==> forall i :: 0 <= i < |required| ==> required[i] in data
  {
    if required == [] then true
    else required[0] in data && AllRequiredPresent(data, required[1..])
  }

  function AllTypesMatch(data: map<string, Json>, props: seq<(string, PropertySchema)>): (r: bool)
    ensures r <==> forall i :: 0 <= i < |props| ==> !WrongType(data, props[i].0, props[i].1)
  {
    if props == [] then true
    else !WrongType(data, props[0].0, props[0].1) && AllTypesMatch(data, props[1..])
  }

  /** validate_json_schema */
  function ValidateJsonSchema(data: map<string, Json>, schema: Schema): (r: bool)
    ensures !r <==>
      (schema.required.Some? && exists i :: 0 <= i < |schema.required.value| && schema.required.value[i] !in data)
      || (schema.properties.Some? &&
          exists i :: 0 <= i < |schema.properties.value| &&
            WrongType(data, schema.properties.value[i].0, schema.properties.value[i].1))
  {
    (schema.required.None? || AllRequiredPresent(data, schema.required.value))
    && (schema.properties.None? || AllTypesMatch(data, schema.properties.value))
  }

  /** bool is a subclass of int in Python, so a boolean passes an "integer" check; absent and null fields are never type-checked. */
  lemma JsonSchemaQuirks(field: string)
    ensures ValidateJsonSchema(map[field := JBool(true)],
                               Schema(None, Some([(field, PropertySchema(Some("integer")))])))
    ensures ValidateJsonSchema(map[field := JNull],
                               Schema(None, Some([(field, PropertySchema(Some("string")))])))
    ensures ValidateJsonSchema(map[],
                               Schema(None, Some([(field, PropertySchema(Some("string")))])))
    ensures !ValidateJsonSchema(map[], Schema(Some([field]), None))
  {
  }

  // ---------------------------------------------------------------------------
  // Sanitising

  /** Case-insensitive comparison with a lower-case ASCII pattern character. */
  predicate CharEqNoCase(c: char, p: char)
  {
    LowerChar(c) == p
  }

  predicate StartsWithNoCase(s: string, pat: string)
  {
    |pat| <= |s| && forall i :: 0 <= i < |pat| ==> CharEqNoCase(s[i], pat[i])
  }

  /** The first index at or after `from` where pat occurs, ignoring case. */
  function FindNoCase(s: string, pat: string, from: nat): (r: Option<nat>)
    requires from <= |s|
    ensures r.Some? ==> from <= r.value <= |s| - |pat| && StartsWithNoCase(s[r.value..], pat)
    ensures r.Some? ==> forall k :: from <= k < r.value ==> !StartsWithNoCase(s[k..], pat)
    ensures r.None? ==> forall k :: from <= k <= |s| ==> !StartsWithNoCase(s[k..], pat)
    decreases |s| - from
  {
    if StartsWithNoCase(s[from..], pat) then Some(from)
    else if from == |s| then None
    else FindNoCase(s, pat, from + 1)
  }

  /** The first index at or after `from` holding c. */
  function FindChar(s: string, c: char, from: nat): (r: Option<nat>)
    requires from <= |s|
    ensures r.Some? ==> from <= r.value < |s| && s[r.value] == c
    ensures r.Some? ==> forall k :: from <= k < r.value ==> s[k] != c
    ensures r.None? ==> forall k :: from <= k < |s| ==> s[k] != c
    decreases |s| - from
  {
    if from == |s| then None
    else if s[from] == c then Some(from)
    else FindChar(s, c, from + 1)
  }

  /**
   * Where a match of `<script.*?>.*?</script>` (ignoring case, `.` matching
   * newlines) that begins at position 0 of s ends.  The lazy `.*?>` stops at
   * the first '>' and the lazy `.*?</script>` at the first closing tag after
   * it; a later '>' could only leave fewer closing tags to find, so when the
   * first one fails the whole match fails.
   */
  function ScriptMatchEnd(s: string): (r: Option<nat>)
    ensures r.Some? ==> 0 < r.value <= |s|
  {
    if !StartsWithNoCase(s, "<script") then None
    else match FindChar(s, '>', 7)
      case None => None
      case Some(k) =>
        match FindNoCase(s, "</script>", k + 1)
        case None => None
        case Some(m) => Some(m + 9)
  }

  /** re.sub(r'<script.*?>.*?</script>', '', s, flags=re.IGNORECASE | re.DOTALL) */
  function RemoveScripts(s: string): (r: string)
    ensures |r| <= |s|
    ensures forall c :: c in r ==> c in s
    ensures '<' !in s ==> r == s
    decreases |s|
  {
    if s == [] then []
    else match ScriptMatchEnd(s)
      case Some(e) => RemoveScripts(s[e..])
      case None => [s[0]] + RemoveScripts(s[1..])
  }

  /** Where a match of `<.*?>` (`.` not matching a newline) that begins at position 0 of s ends. */
  function TagMatchEnd(s: string): (r: Option<nat>)
    ensures r.Some? ==> 2 <= r.value <= |s| && s[0] == '<' && s[r.value - 1] == '>'
    ensures r.Some? ==> forall k :: 1 <= k < r.value - 1 ==> s[k] != '>' && s[k] != '\n'
  {
    if s == [] || s[0] != '<' then None
    else match FindChar(s, '>', 1)
      case None => None
      case Some(k) => if '\n' in s[1..k] then None else Some(k + 1)
  }

  /** re.sub(r'<.*?>', '', s) */
  function StripTags(s: string): (r: string)
    ensures |r| <= |s|
    ensures forall c :: c in r ==> c in s
    ensures '<' !in s ==> r == s
    decreases |s|
  {
    if s == [] then []
    else match TagMatchEnd(s)
      case Some(e) => StripTags(s[e..])
      case None => [s[0]] + StripTags(s[1..])
  }

  /** s with every occurrence of c replaced by rep (str.replace for a one-character pattern). */
  function Replace(s: string, c: char, rep: string): (r: string)
    ensures c !in rep ==> c !in r
  {
    if s == [] then [] else (if s[0] == c then rep else [s[0]]) + Replace(s[1..], c, rep)
  }

  /** The chain of five str.replace calls, in the order the code applies them. */
  function EscapeHtml(s: string): (r: string)
    ensures '<' !in r && '>' !in r && '"' !in r && '\'' !in r
  {
    var s1 := Replace(s, '&', "&amp;");
    var s2 := Replace(s1, '<', "&lt;");
    var s3 := Replace(s2, '>', "&gt;");
    var s4 := Replace(s3, '"', "&quot;");
    EntitiesAreSafe();
    ReplaceKeepsAbsent(s2, '>', "&gt;", '<');
    ReplaceKeepsAbsent(s3, '"', "&quot;", '<');
    ReplaceKeepsAbsent(s3, '"', "&quot;", '>');
    ReplaceKeepsAbsent(s4, '\'', "&#x27;", '<');
    ReplaceKeepsAbsent(s4, '\'', "&#x27;", '>');
    ReplaceKeepsAbsent(s4, '\'', "&#x27;", '"');
    Replace(s4, '\'', "&#x27;")
  }

  /** The entities written after '<' is replaced hold none of the characters replaced before them. */
  lemma EntitiesAreSafe()
    ensures '<' !in "&gt;" && '<' !in "&quot;" && '>' !in "&quot;"
    ensures '<' !in "&#x27;" && '>' !in "&#x27;" && '"' !in "&#x27;"
  {
  }

  /** A replacement introduces no character that neither the text nor the replacement holds. */
  lemma {:induction false} ReplaceKeepsAbsent(s: string, c: char, rep: string, d: char)
    requires d !in s && d !in rep
    ensures d !in Replace(s, c, rep)
  {
    if s != [] {
      assert d !in s[1..] by { assert s == [s[0]] + s[1..]; }
      ReplaceKeepsAbsent(s[1..], c, rep, d);
    }
  }

  /** sanitize_input */
  function SanitizeInput(value: string): (r: string)
    ensures value == [] ==> r == []
    ensures '<' !in r && '>' !in r && '"' !in r && '\'' !in r
  {
    if value == [] then []
    else
      var t := StripTags(RemoveScripts(value));
      EscapeHtmlIsEscapeEach(t);
      EscapeEachSafe(t);
      EscapeHtml(t)
  }

  lemma {:induction false} EscapeEachSafe(s: string)
    ensures '<' !in EscapeEach(s) && '>' !in EscapeEach(s) && '"' !in EscapeEach(s) && '\'' !in EscapeEach(s)
    decreases |s|
  {
    if s != [] {
      EscapeEachSafe(s[1..]);
      EscapeCharSafe(s[0]);
      assert EscapeEach(s) == EscapeChar(s[0]) + EscapeEach(s[1..]);
    }
  }

  lemma EscapeCharSafe(c: char)
    ensures '<' !in EscapeChar(c) && '>' !in EscapeChar(c) && '"' !in EscapeChar(c) && '\'' !in EscapeChar(c)
  {
  }

  // The escaping chain is a character-by-character translation, because '&'
  // is escaped first and no later replacement introduces the characters still
  // to be replaced.  Its inverse decodes the five entities.

  function EscapeChar(c: char): string
  {
    if c == '&' then "&amp;" else if c == '<' then "&lt;" else if c == '>' then "&gt;"
    else if c == '"' then "&quot;" else if c == '\'' then "&#x27;" else [c]
  }

  function EscapeEach(s: string): string
  {
    if s == [] then [] else EscapeChar(s[0]) + EscapeEach(s[1..])
  }

  lemma {:induction false} ReplaceAppend(a: string, b: string, c: char, rep: string)
    ensures Replace(a + b, c, rep) == Replace(a, c, rep) + Replace(b, c, rep)
    decreases |a|
  {
    if a == [] {
      assert a + b == b;
    } else {
      assert (a + b)[0] == a[0];
      assert (a + b)[1..] == a[1..] + b;
      ReplaceAppend(a[1..], b, c, rep);
    }
  }

  lemma {:induction false} EscapeHtmlIsEscapeEach(s: string)
    ensures EscapeHtml(s) == EscapeEach(s)
    decreases |s|
  {
    if s != [] {
      var h, t := [s[0]], s[1..];
      assert s == h + t;
      var r1t, r2t, r3t, r4t := Replace(t, '&', "&amp;"), Replace(Replace(t, '&', "&amp;"), '<', "&lt;"),
        Replace(Replace(Replace(t, '&', "&amp;"), '<', "&lt;"), '>', "&gt;"),
        Replace(Replace(Replace(Replace(t, '&', "&amp;"), '<', "&lt;"), '>', "&gt;"), '"', "&quot;");
      var r1h := Replace(h, '&', "&amp;");
      var r2h := Replace(r1h, '<', "&lt;");
      var r3h := Replace(r2h, '>', "&gt;");
      var r4h := Replace(r3h, '"', "&quot;");
      ReplaceAppend(h, t, '&', "&amp;");
      ReplaceAppend(r1h, r1t, '<', "&lt;");
      ReplaceAppend(r2h, r2t, '>', "&gt;");
      ReplaceAppend(r3h, r3t, '"', "&quot;");
      ReplaceAppend(r4h, r4t, '\'', "&#x27;");
      EscapeHtmlIsEscapeEach(t);
      EscapeCharChain(s[0]);
    }
  }

  lemma ReplaceOne(d: char, c: char, rep: string)
    ensures Replace([d], c, rep) == if d == c then rep else [d]
  {
    assert [d][1..] == [];
  }

  lemma EscapeCharChain(c: char)
    ensures EscapeHtml([c]) == EscapeChar(c)
  {
    ReplaceOne(c, '&', "&amp;");
    if c == '&' {
      EscapeAfterAmp("&amp;");
    } else {
      ReplaceOne(c, '<', "&lt;");
      if c == '<' {
        EscapeAfterLt("&lt;");
      } else {
        ReplaceOne(c, '>', "&gt;");
        if c == '>' {
          EscapeAfterGt("&gt;");
        } else {
          ReplaceOne(c, '"', "&quot;");
          if c == '"' {
            ReplaceOfLiteral("&quot;", '\'', "&#x27;");
          } else {
            ReplaceOne(c, '\'', "&#x27;");
          }
        }
      }
    }
  }

  lemma EscapeAfterAmp(s: string)
    requires '<' !in s && '>' !in s && '"' !in s && '\'' !in s
    ensures Replace(Replace(Replace(Replace(s, '<', "&lt;"), '>', "&gt;"), '"', "&quot;"), '\'', "&#x27;") == s
  {
    ReplaceOfLiteral(s, '<', "&lt;");
    EscapeAfterLt(s);
  }

  lemma EscapeAfterLt(s: string)
    requires '>' !in s && '"' !in s && '\'' !in s
    ensures Replace(Replace(Replace(s, '>', "&gt;"), '"', "&quot;"), '\'', "&#x27;") == s
  {
    ReplaceOfLiteral(s, '>', "&gt;");
    EscapeAfterGt(s);
  }

  lemma EscapeAfterGt(s: string)
    requires '"' !in s && '\'' !in s
    ensures Replace(Replace(s, '"', "&quot;"), '\'', "&#x27;") == s
  {
    ReplaceOfLiteral(s, '"', "&quot;");
    ReplaceOfLiteral(s, '\'', "&#x27;");
  }

  lemma {:induction false} ReplaceOfLiteral(s: string, c: char, rep: string)
    requires c !in s
    ensures Replace(s, c, rep) == s
    decreases |s|
  {
    if s != [] {
      ReplaceOfLiteral(s[1..], c, rep);
      assert s == [s[0]] + s[1..];
    }
  }

  /** Decoding of the five entities the sanitiser writes (any other text is kept). */
  function UnescapeHtml(s: string): string
    decreases |s|
  {
    if s == [] then []
    else if StartsWith(s, "&amp;") then "&" + UnescapeHtml(s[5..])
    else if StartsWith(s, "&lt;") then "<" + UnescapeHtml(s[4..])
    else if StartsWith(s, "&gt;") then ">" + UnescapeHtml(s[4..])
    else if StartsWith(s, "&quot;") then "\"" + UnescapeHtml(s[6..])
    else if StartsWith(s, "&#x27;") then "'" + UnescapeHtml(s[6..])
    else [s[0]] + UnescapeHtml(s[1..])
  }

  /** Decoding undoes the translation of one character. */
  lemma UnescapeStep(c: char, rest: string)
    ensures UnescapeHtml(EscapeChar(c) + rest) == [c] + UnescapeHtml(rest)
  {
    if c == '&' { UnescapeAmp(rest); }
    else if c == '<' { UnescapeLt(rest); }
    else if c == '>' { UnescapeGt(rest); }
    else if c == '"' { UnescapeQuot(rest); }
    else if c == '\'' { UnescapeApos(rest); }
    else {
      assert EscapeChar(c) == [c];
      UnescapePlain(c, rest);
    }
  }

  lemma UnescapePlain(c: char, rest: string)
    requires c != '&'
    ensures UnescapeHtml([c] + rest) == [c] + UnescapeHtml(rest)
  {
    var e := [c] + rest;
    assert e[0] == c && e[1..] == rest;
    DiffersAt(e, "&amp;", 0);
    DiffersAt(e, "&lt;", 0);
    DiffersAt(e, "&gt;", 0);
    DiffersAt(e, "&quot;", 0);
    DiffersAt(e, "&#x27;", 0);
  }

  /** A text that differs from t at position i does not start with t. */
  lemma DiffersAt(e: string, t: string, i: nat)
    requires i < |t| && i < |e| && e[i] != t[i]
    ensures !StartsWith(e, t)
  {
    if |t| <= |e| {
      assert e[..|t|][i] == e[i];
    }
  }

  lemma UnescapeAmp(rest: string)
    ensures UnescapeHtml("&amp;" + rest) == "&" + UnescapeHtml(rest)
  {
    var e := "&amp;" + rest;
    assert e[..5] == "&amp;" && e[5..] == rest;
  }

  lemma UnescapeLt(rest: string)
    ensures UnescapeHtml("&lt;" + rest) == "<" + UnescapeHtml(rest)
  {
    var e := "&lt;" + rest;
    assert e[..4] == "&lt;" && e[4..] == rest;
    DiffersAt(e, "&amp;", 1);
  }

  lemma UnescapeGt(rest: string)
    ensures UnescapeHtml("&gt;" + rest) == ">" + UnescapeHtml(rest)
  {
    var e := "&gt;" + rest;
    assert e[..4] == "&gt;" && e[4..] == rest;
    DiffersAt(e, "&amp;", 1);
    DiffersAt(e, "&lt;", 1);
  }

  lemma UnescapeQuot(rest: string)
    ensures UnescapeHtml("&quot;" + rest) == "\"" + UnescapeHtml(rest)
  {
    var e := "&quot;" + rest;
    assert e[..6] == "&quot;" && e[6..] == rest;
    DiffersAt(e, "&amp;", 1);
    DiffersAt(e, "&lt;", 1);
    DiffersAt(e, "&gt;", 1);
  }

  lemma UnescapeApos(rest: string)
    ensures UnescapeHtml("&#x27;" + rest) == "'" + UnescapeHtml(rest)
  {
    var e := "&#x27;" + rest;
    assert e[..6] == "&#x27;" && e[6..] == rest;
    DiffersAt(e, "&amp;", 1);
    DiffersAt(e, "&lt;", 1);
    DiffersAt(e, "&gt;", 1);
    DiffersAt(e, "&quot;", 1);
  }

  lemma {:induction false} UnescapeEscapeEach(s: string)
    ensures UnescapeHtml(EscapeEach(s)) == s
    decreases |s|
  {
    if s != [] {
      UnescapeEscapeEach(s[1..]);
      UnescapeStep(s[0], EscapeEach(s[1..]));
      assert s == [s[0]] + s[1..];
    }
  }

  /** Escaping loses nothing: decoding the sanitiser's output gives back the tag-stripped text. */
  lemma SanitizeInputRoundTrip(value: string)
    requires value != []
    ensures UnescapeHtml(SanitizeInput(value)) == StripTags(RemoveScripts(value))
  {
    var t := StripTags(RemoveScripts(value));
    EscapeHtmlIsEscapeEach(t);
    UnescapeEscapeEach(t);
  }

  /** A script element goes with its body; any other tag loses just its markup. */
  lemma SanitizeExamples()
    ensures RemoveScripts("<script>x</script>") == ""
    ensures StripTags("<b>x") == "x"
  {
    ScriptElementMatched();
    TagMatched();
  }

  lemma ScriptElementMatched()
    ensures ScriptMatchEnd("<script>x</script>") == Some(18)
  {
    var s := "<script>x</script>";
    assert s[..7] == "<script";
    StartsWithNoCaseExact(s, "<script");
    assert FindChar(s, '>', 7) == Some(7);
    assert s[9..][..9] == "</script>";
    StartsWithNoCaseExact(s[9..], "</script>");
    assert FindNoCase(s, "</script>", 9) == Some(9);
    assert !StartsWithNoCase(s[8..], "</script>") by { assert s[8..][0] == 'x'; }
  }

  /** A text starting with a lower-case pat exactly also starts with it ignoring case. */
  lemma StartsWithNoCaseExact(s: string, pat: string)
    requires |pat| <= |s| && s[..|pat|] == pat
    requires forall i :: 0 <= i < |pat| ==> !IsUpper(pat[i])
    ensures StartsWithNoCase(s, pat)
  {
    forall i | 0 <= i < |pat| ensures CharEqNoCase(s[i], pat[i]) {
      assert s[i] == s[..|pat|][i];
    }
  }

  lemma TagMatched()
    ensures TagMatchEnd("<b>x") == Some(3) && TagMatchEnd("x") == None
  {
    var t := "<b>x";
    assert FindChar(t, '>', 1) == Some(2);
  }
}
