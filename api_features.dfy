/** The list-query builder shared by the listing handlers: it turns a request's
    query string into filter conditions, a sort order, a projection and a page
    window, each step reassigning the accumulated query. A query string is a
    map from parameter names to their single string values. */
module ApiFeatures {
  import opened Common

  type QueryString = map<string, string>

  /** A filter condition on one field: an exact value, or a case-insensitive
      regular expression with its options. */
  datatype Cond = Eq(value: string) | Regex(pattern: string, options: string)

  /** What the chained query calls have set so far. */
  datatype Query = Query(
    conditions: map<string, Cond>,
    sort: Option<string>,
    projection: Option<string>,
    skip: Option<int>,
    limit: Option<int>)

  // ---------------------------------------------------------------------------
  // escapeRegex

  /** The characters a regular expression treats specially. */
  predicate IsRegexSpecial(c: char) {
    c in ".*+?^${}()|[]\\"
  }

  /** escapeRegex: a backslash before every special character. */
  function EscapeRegex(s: string): string
    decreases |s|
  {
    if s == [] then []
    else (if IsRegexSpecial(s[0]) then ['\\', s[0]] else [s[0]]) + EscapeRegex(s[1..])
  }

  function CountSpecials(s: string): nat
    decreases |s|
  {
    if s == [] then 0 else (if IsRegexSpecial(s[0]) then 1 else 0) + CountSpecials(s[1..])
  }

  /** How a regular expression reads an escaped literal back: a backslash
      stands for the character after it. */
  function Unescape(t: string): string
    decreases |t|
  {
    if t == [] then []
    else if t[0] == '\\' && |t| > 1 then [t[1]] + Unescape(t[2..])
    else [t[0]] + Unescape(t[1..])
  }

  /** A single character is escaped exactly when it is special. */
  lemma {:induction false} EscapeChar(c: char)
    ensures EscapeRegex([c]) == if IsRegexSpecial(c) then ['\\', c] else [c]
  {
    assert [c][1..] == [];
  }

  /** Escaping works character by character. */
  lemma {:induction false} EscapeAppend(a: string, b: string)
    ensures EscapeRegex(a + b) == EscapeRegex(a) + EscapeRegex(b)
    decreases |a|
  {
    if a == [] {
      assert a + b == b;
    } else {
      assert (a + b)[1..] == a[1..] + b;
      EscapeAppend(a[1..], b);
    }
  }

  /** The output is the input lengthened by one backslash per special character. */
  lemma {:induction false} EscapeLength(s: string)
    ensures |EscapeRegex(s)| == |s| + CountSpecials(s)
    decreases |s|
  {
    if s != [] {
      EscapeLength(s[1..]);
    }
  }

  /** The escaped pattern reads back as the literal string it was made from. */
  lemma {:induction false} EscapeRoundTrip(s: string)
    ensures Unescape(EscapeRegex(s)) == s
    decreases |s|
  {
    if s != [] {
      EscapeRoundTrip(s[1..]);
      var t := EscapeRegex(s);
      if IsRegexSpecial(s[0]) {
        assert t == ['\\', s[0]] + EscapeRegex(s[1..]);
        assert t[2..] == EscapeRegex(s[1..]);
      } else {
        assert t == [s[0]] + EscapeRegex(s[1..]);
        assert t[1..] == EscapeRegex(s[1..]);
        assert s[0] != '\\';
      }
    }
  }

  // ---------------------------------------------------------------------------
  // The operator rewrite: every whole word gte, gt, lte or lt gains a '$'.

  predicate IsWordChar(c: char) {
    ('a' <= c <= 'z') || ('A' <= c <= 'Z') || ('0' <= c <= '9') || c == '_'
  }

  predicate IsOperator(w: string) {
    w == "gte" || w == "gt" || w == "lte" || w == "lt"
  }

  /** The length of the run of word characters s starts with. */
  function WordRun(s: string): (n: nat)
    ensures n <= |s|
    ensures n < |s| ==> !IsWordChar(s[n])
    ensures s != [] && IsWordChar(s[0]) ==> n >= 1
    decreases |s|
  {
    if s == [] || !IsWordChar(s[0]) then 0 else 1 + WordRun(s[1..])
  }

  /** The run holds word characters only. */
  lemma {:induction false} WordRunWords(s: string)
    ensures forall i :: 0 <= i < WordRun(s) ==> IsWordChar(s[..WordRun(s)][i])
    decreases |s|
  {
    if s != [] && IsWordChar(s[0]) {
      WordRunWords(s[1..]);
      var n := WordRun(s);
      assert forall i :: 1 <= i < n ==> s[..n][i] == s[1..][..n - 1][i - 1];
    }
  }

  /** The replace of `\b(gte|gt|lte|lt)\b` by `$` and the match, on one string. */
  function RewriteOps(s: string): string
    decreases |s|
  {
    if s == [] then []
    else if !IsWordChar(s[0]) then [s[0]] + RewriteOps(s[1..])
    else
      var n := WordRun(s);
      (if IsOperator(s[..n]) then "$" + s[..n] else s[..n]) + RewriteOps(s[n..])
  }

  /** The inverse reading: the '$' just before an operator word is dropped. */
  function UnrewriteOps(t: string): string
    decreases |t|
  {
    if t == [] then []
    else if IsWordChar(t[0]) then
      var n := WordRun(t);
      t[..n] + UnrewriteOps(t[n..])
    else if t[0] == '$' && IsOperator(t[1..][..WordRun(t[1..])]) then
      var n := WordRun(t[1..]);
      t[1..1 + n] + UnrewriteOps(t[1 + n..])
    else [t[0]] + UnrewriteOps(t[1..])
  }

  lemma {:induction false} WordRunConcat(w: string, y: string)
    requires forall i :: 0 <= i < |w| ==> IsWordChar(w[i])
    requires y == [] || !IsWordChar(y[0])
    ensures WordRun(w + y) == |w|
    decreases |w|
  {
    if w != [] {
      assert (w + y)[1..] == w[1..] + y;
      WordRunConcat(w[1..], y);
    }
  }

  /** A rewritten string starts with a word run exactly when the original did
      and that run is no operator, so its leading run is never an operator. */
  lemma {:induction false} RewriteHead(s: string)
    ensures s == [] || !IsWordChar(s[0]) ==> RewriteOps(s) == [] || RewriteOps(s)[0] == s[0]
    ensures !IsOperator(RewriteOps(s)[..WordRun(RewriteOps(s))])
  {
    var t := RewriteOps(s);
    if s != [] && IsWordChar(s[0]) {
      var n := WordRun(s);
      var rest := RewriteOps(s[n..]);
      WordRunWords(s);
      if IsOperator(s[..n]) {
        assert t[0] == '$';
      } else {
        RewriteHead(s[n..]);
        WordRunConcat(s[..n], rest);
        assert t == s[..n] + rest;
        assert t[..WordRun(t)] == s[..n];
      }
    } else {
      assert t == [] || !IsWordChar(t[0]);
    }
  }

  lemma {:induction false} RoundTripSymbol(s: string)
    requires s != [] && !IsWordChar(s[0])
    requires UnrewriteOps(RewriteOps(s[1..])) == s[1..]
    ensures UnrewriteOps(RewriteOps(s)) == s
  {
    var r := RewriteOps(s[1..]);
    RewriteHead(s[1..]);
    var t := [s[0]] + r;
    assert RewriteOps(s) == t;
    assert t[1..] == r;
    assert UnrewriteOps(t) == [s[0]] + UnrewriteOps(r);
  }

  lemma {:induction false} RoundTripWord(s: string, n: nat)
    requires s != [] && IsWordChar(s[0]) && n == WordRun(s)
    requires UnrewriteOps(RewriteOps(s[n..])) == s[n..]
    ensures UnrewriteOps(RewriteOps(s)) == s
  {
    var w := s[..n];
    var rest := s[n..];
    WordRunWords(s);
    assert rest == [] || !IsWordChar(rest[0]);
    assert s == w + rest;
    if IsOperator(w) {
      assert RewriteOps(s) == "$" + w + RewriteOps(rest);
      RoundTripOperator(w, rest);
    } else {
      assert RewriteOps(s) == w + RewriteOps(rest);
      RoundTripPlain(w, rest);
    }
  }

  lemma {:induction false} RoundTripOperator(w: string, rest: string)
    requires IsOperator(w)
    requires forall i :: 0 <= i < |w| ==> IsWordChar(w[i])
    requires rest == [] || !IsWordChar(rest[0])
    requires UnrewriteOps(RewriteOps(rest)) == rest
    ensures UnrewriteOps("$" + w + RewriteOps(rest)) == w + rest
  {
    var r := RewriteOps(rest);
    RewriteHead(rest);
    WordRunConcat(w, r);
    var t := "$" + w + r;
    assert t[1..] == w + r;
    assert t[1..][..WordRun(t[1..])] == w;
    assert t[1..1 + |w|] == w && t[1 + |w|..] == r;
  }

  lemma {:induction false} RoundTripPlain(w: string, rest: string)
    requires w != []
    requires forall i :: 0 <= i < |w| ==> IsWordChar(w[i])
    requires rest == [] || !IsWordChar(rest[0])
    requires UnrewriteOps(RewriteOps(rest)) == rest
    ensures UnrewriteOps(w + RewriteOps(rest)) == w + rest
  {
    var r := RewriteOps(rest);
    RewriteHead(rest);
    WordRunConcat(w, r);
    var t := w + r;
    assert t[0] == w[0];
    assert t[..|w|] == w && t[|w|..] == r;
  }

  /** The rewrite loses nothing: it can be undone, so no two strings rewrite alike. */
  lemma {:induction false} RewriteRoundTrip(s: string)
    ensures UnrewriteOps(RewriteOps(s)) == s
    decreases |s|
  {
    if s == [] {
    } else if !IsWordChar(s[0]) {
      RewriteRoundTrip(s[1..]);
      RoundTripSymbol(s);
    } else {
      var n := WordRun(s);
      RewriteRoundTrip(s[n..]);
      RoundTripWord(s, n);
    }
  }

  // ---------------------------------------------------------------------------
  // filter

  const ExcludedFields: seq<string> := ["page", "sort", "limit", "fields"]

  /** The fields searched by a case-insensitive pattern rather than exactly. */
  const SearchFields: seq<string> := ["name", "sku", "color", "email"]

  /** The search fields wrapped in the query that reaches the database as
      written: the email wrap goes to the copy that was already serialised. */
  const SearchFieldsAsWritten: seq<string> := ["name", "sku", "color"]

  function Wrap(value: string): Cond {
    Regex(EscapeRegex(value), "i")
  }

  /** The condition a parameter becomes, given the fields that are searched. */
  function CondFor(key: string, value: string, search: seq<string>): Cond {
    if key in search && Truthy(value) then Wrap(value) else Eq(value)
  }

  /** The shallow copy without the paging and shaping parameters. */
  function Omit(qs: QueryString): QueryString {
    qs - (set f | f in ExcludedFields)
  }

  /** Every value rewritten, and the search fields wrapped when non-empty. */
  function Parsed(obj: QueryString, search: seq<string>): map<string, Cond> {
    map k | k in obj :: CondFor(k, RewriteOps(obj[k]), search)
  }

  /** The category parameter dropped when it asks for "all". */
  function DropAllCategory(m: map<string, Cond>): map<string, Cond> {
    if "category" in m && m["category"] == Eq("all") then m - {"category"} else m
  }

  /** What filter hands to find, over the given search fields. */
  function Conditions(qs: QueryString, search: seq<string>): map<string, Cond> {
    DropAllCategory(Parsed(Omit(qs), search))
  }

  /** When category is not searched, the conditions keep every parameter but
      the paging and shaping ones and a category of "all", and each value is its
      rewritten form, wrapped when it is a non-empty search field. */
  lemma {:induction false} ConditionsShape(qs: QueryString, search: seq<string>)
    requires "category" !in search
    ensures Conditions(qs, search).Keys == qs.Keys - {"page", "sort", "limit", "fields"}
            - (if "category" in qs && qs["category"] == "all" then {"category"} else {})
    ensures forall k :: k in Conditions(qs, search) ==>
            Conditions(qs, search)[k] == CondFor(k, RewriteOps(qs[k]), search)
  {
    var obj := Omit(qs);
    assert (set f | f in ExcludedFields) == {"page", "sort", "limit", "fields"};
    CategoryAll(obj, search);
  }

  /** A kept category is dropped exactly when its value is "all". */
  lemma {:induction false} CategoryAll(obj: QueryString, search: seq<string>)
    requires "category" !in search
    ensures "category" in obj ==>
      ("category" in Parsed(obj, search) && Parsed(obj, search)["category"] == Eq("all") <==> obj["category"] == "all")
  {
    if "category" in obj {
      RewritePlainWord("all");
      RewriteRoundTrip("all");
      RewriteRoundTrip(obj["category"]);
    }
  }

  /** The conditions filter builds, with email searched like the other fields. */
  function FilterConditions(qs: QueryString): (r: map<string, Cond>)
    ensures r.Keys == qs.Keys - {"page", "sort", "limit", "fields"}
                     - (if "category" in qs && qs["category"] == "all" then {"category"} else {})
    ensures forall k :: k in r ==> r[k] == CondFor(k, RewriteOps(qs[k]), SearchFields)
  {
    ConditionsShape(qs, SearchFields);
    Conditions(qs, SearchFields)
  }

  /** The conditions as the code writes them. */
  function FilterConditionsAsWritten(qs: QueryString): (r: map<string, Cond>)
    ensures r.Keys == FilterConditions(qs).Keys
    ensures forall k :: k in r ==> r[k] == CondFor(k, RewriteOps(qs[k]), SearchFieldsAsWritten)
  {
    ConditionsShape(qs, SearchFieldsAsWritten);
    Conditions(qs, SearchFieldsAsWritten)
  }

  /** A non-empty search parameter becomes a case-insensitive pattern that
      reads back as its rewritten value; any other kept parameter is matched
      exactly. */
  lemma {:induction false} FilterSearchLiteral(qs: QueryString, k: string)
    requires k in FilterConditions(qs)
    ensures k in SearchFields && Truthy(RewriteOps(qs[k])) ==>
      FilterConditions(qs)[k].Regex? && FilterConditions(qs)[k].options == "i" &&
      Unescape(FilterConditions(qs)[k].pattern) == RewriteOps(qs[k])
    ensures !(k in SearchFields && Truthy(RewriteOps(qs[k]))) ==> FilterConditions(qs)[k] == Eq(RewriteOps(qs[k]))
  {
    EscapeRoundTrip(RewriteOps(qs[k]));
  }

  /** As written, a non-empty email parameter is matched exactly, so a search
      for "Ann" finds neither "ann" nor "Ann@shop.vn"; the corrected filter
      searches it as a case-insensitive pattern. */
  lemma {:induction false} EmailExactAsWritten()
    ensures FilterConditionsAsWritten(map["email" := "Ann"])["email"] == Eq("Ann")
    ensures FilterConditions(map["email" := "Ann"])["email"] == Regex("Ann", "i")
  {
    EmailAsWrittenAnn();
    EmailCorrectedAnn();
  }

  lemma {:induction false} EmailAsWrittenAnn()
    ensures FilterConditionsAsWritten(map["email" := "Ann"])["email"] == Eq("Ann")
  {
    RewritePlainWord("Ann");
    assert "email" in FilterConditions(map["email" := "Ann"]);
  }

  lemma {:induction false} EmailCorrectedAnn()
    ensures FilterConditions(map["email" := "Ann"])["email"] == Regex("Ann", "i")
  {
    RewritePlainWord("Ann");
    assert "email" in FilterConditions(map["email" := "Ann"]);
    assert SearchFields[3] == "email";
    assert EscapeRegex("Ann") == "Ann";
  }

  /** A word that is no operator is left as it is. */
  lemma {:induction false} RewritePlainWord(w: string)
    requires |w| >= 1 && !IsOperator(w)
    requires forall i :: 0 <= i < |w| ==> IsWordChar(w[i])
    ensures RewriteOps(w) == w
  {
    WordRunConcat(w, []);
    assert w + [] == w;
    assert w[..|w|] == w && w[|w|..] == [];
  }


  // ---------------------------------------------------------------------------
  // sort and limitFields: split(',').join(' ')

  /** `s.split(c)`. */
  function Split(s: string, c: char): (r: seq<string>)
    ensures |r| >= 1
    decreases |s|
  {
    if s == [] then [""]
    else
      var rest := Split(s[1..], c);
      if s[0] == c then [""] + rest else [[s[0]] + rest[0]] + rest[1..]
  }

  /** `parts.join(sep)`. */
  function Join(parts: seq<string>, sep: string): string
    requires |parts| >= 1
    decreases |parts|
  {
    if |parts| == 1 then parts[0] else parts[0] + sep + Join(parts[1..], sep)
  }

  /** s with every c replaced by d. */
  function ReplaceChar(s: string, c: char, d: char): (r: string)
    ensures |r| == |s|
    ensures forall i :: 0 <= i < |s| ==> r[i] == if s[i] == c then d else s[i]
    decreases |s|
  {
    if s == [] then [] else [if s[0] == c then d else s[0]] + ReplaceChar(s[1..], c, d)
  }

  lemma {:induction false} JoinHead(x: char, parts: seq<string>, sep: string)
    requires |parts| >= 1
    ensures Join([[x] + parts[0]] + parts[1..], sep) == [x] + Join(parts, sep)
  {
    var ps := [[x] + parts[0]] + parts[1..];
    if |parts| > 1 {
      assert ps[1..] == parts[1..];
    }
  }

  /** Splitting at c and joining with d replaces every c by d. */
  lemma {:induction false} SplitJoin(s: string, c: char, d: char)
    ensures Join(Split(s, c), [d]) == ReplaceChar(s, c, d)
    decreases |s|
  {
    if s != [] {
      var rest := Split(s[1..], c);
      SplitJoin(s[1..], c, d);
      if s[0] == c {
        assert ([""] + rest)[1..] == rest;
      } else {
        JoinHead(s[0], rest, [d]);
      }
    }
  }

  /** The list of a sort or fields parameter, or the default when it is empty
      or missing. */
  function SpaceList(qs: QueryString, key: string, default: string): (r: string)
    ensures key in qs && Truthy(qs[key]) ==>
      |r| == |qs[key]| && ',' !in r &&
      forall i :: 0 <= i < |r| ==> r[i] == (if qs[key][i] == ',' then ' ' else qs[key][i])
    ensures !(key in qs && Truthy(qs[key])) ==> r == default
  {
    if key in qs && Truthy(qs[key]) then
      SplitJoin(qs[key], ',', ' ');
      Join(Split(qs[key], ','), " ")
    else default
  }

  // ---------------------------------------------------------------------------
  // paginate

  predicate AllDigits(s: string) {
    forall i :: 0 <= i < |s| ==> '0' <= s[i] <= '9'
  }

  function DigitsValue(s: string): nat
    requires AllDigits(s)
    decreases |s|
  {
    if s == [] then 0 else DigitsValue(s[..|s| - 1]) * 10 + (s[|s| - 1] - '0') as int
  }

  /** `s * 1` for a signed decimal numeral: Some of its value, with "" reading
      as 0, and None where the product is NaN. */
  function ToNumber(s: string): Option<int> {
    if AllDigits(s) then Some(DigitsValue(s))
    else if |s| > 1 && s[0] == '-' && AllDigits(s[1..]) then Some(0 - DigitsValue(s[1..]))
    else None
  }

  /** The decimal numeral of n. */
  function Decimal(n: nat): (r: string)
    ensures |r| >= 1 && AllDigits(r)
    decreases n
  {
    if n < 10 then [('0' as int + n) as char] else Decimal(n / 10) + [('0' as int + n % 10) as char]
  }

  lemma {:induction false} DecimalValue(n: nat)
    ensures ToNumber(Decimal(n)) == Some(n)
    decreases n
  {
    var r := Decimal(n);
    if n >= 10 {
      DecimalValue(n / 10);
      assert r[..|r| - 1] == Decimal(n / 10);
      assert (r[|r| - 1] - '0') as int == n % 10;
      assert DigitsValue(r) == DigitsValue(Decimal(n / 10)) * 10 + n % 10;
    }
  }

  /** `qs[key] * 1 || default`: a missing, NaN or zero value falls back. */
  function NumberOr(qs: QueryString, key: string, default: int): (r: int)
    ensures key !in qs ==> r == default
    ensures key in qs && ToNumber(qs[key]).Some? && ToNumber(qs[key]).value != 0 ==> r == ToNumber(qs[key]).value
    ensures key in qs && (ToNumber(qs[key]).None? || ToNumber(qs[key]).value == 0) ==> r == default
  {
    var n := if key in qs then ToNumber(qs[key]) else None;
    if n.None? || n.value == 0 then default else n.value
  }

  /** The page window: how many documents to skip, and the page size. */
  function Window(qs: QueryString): (w: (int, int))
    ensures w.1 == NumberOr(qs, "limit", 10)
    ensures w.0 == (NumberOr(qs, "page", 1) - 1) * w.1
  {
    var page := NumberOr(qs, "page", 1);
    var limit := NumberOr(qs, "limit", 10);
    ((page - 1) * limit, limit)
  }

  /** Without page and limit, the first ten documents are taken. */
  lemma {:induction false} WindowDefaults(qs: QueryString)
    requires "page" !in qs && "limit" !in qs
    ensures Window(qs) == (0, 10)
  {
  }

  /** A numeral page p (at least 1) with a numeral limit l (at least 1) skips the
      (p - 1) * l documents before it. */
  lemma {:induction false} WindowOfNumerals(qs: QueryString, p: nat, l: nat)
    requires p >= 1 && l >= 1
    requires "page" in qs && qs["page"] == Decimal(p)
    requires "limit" in qs && qs["limit"] == Decimal(l)
    ensures Window(qs) == ((p - 1) * l, l)
  {
    DecimalValue(p);
    DecimalValue(l);
  }

  lemma {:induction false} MulMono(a: int, b: int, l: nat)
    requires a <= b
    ensures a * l <= b * l
  {
    assert b * l - a * l == (b - a) * l;
  }

  /** Pages of a positive size tile the documents: document i lies in the window
      of page p exactly when p is i / l + 1. */
  lemma {:induction false} PagesTile(p: int, l: int, i: nat)
    requires p >= 1 && l >= 1
    ensures (p - 1) * l <= i < (p - 1) * l + l <==> p == i / l + 1
  {
    var q := i / l;
    assert q * l <= i < q * l + l;
    assert (p - 1) * l + l == p * l;
    assert q * l + l == (q + 1) * l;
    if (p - 1) * l <= i < (p - 1) * l + l {
      if p - 1 < q {
        MulMono(p, q, l);
      }
      if p - 1 > q {
        MulMono(q + 1, p - 1, l);
      }
    }
  }

  /** The copy of qs without the given fields, deleting one field at a time. */
  method OmitFields(qs: QueryString, fields: seq<string>) returns (r: QueryString)
    ensures r == qs - (set f | f in fields)
  {
    r := qs;
    for i := 0 to |fields|
      invariant forall k :: k in r <==> k in qs && k !in fields[..i]
      invariant forall k :: k in r ==> r[k] == qs[k]
    {
      r := r - {fields[i]};
    }
    assert fields[..|fields|] == fields;
  }

  /** Every value rewritten and, one search field at a time, wrapped when non-empty. */
  method RewriteAndWrap(obj: QueryString, search: seq<string>) returns (parsed: map<string, Cond>)
    ensures parsed == Parsed(obj, search)
  {
    parsed := map k | k in obj :: Eq(RewriteOps(obj[k]));
    for i := 0 to |search|
      invariant parsed.Keys == obj.Keys
      invariant forall k :: k in parsed ==> parsed[k] == CondFor(k, RewriteOps(obj[k]), search[..i])
    {
      var field := search[i];
      if field in parsed && parsed[field].Eq? && Truthy(parsed[field].value) {
        parsed := parsed[field := Wrap(parsed[field].value)];
      }
    }
    assert search[..|search|] == search;
  }

  // ---------------------------------------------------------------------------
  // The builder

  /** APIFeatures: the query so far and the request's query string. */
  class Features {
    var query: Query
    const queryString: QueryString

    constructor(query: Query, queryString: QueryString)
      ensures this.query == query && this.queryString == queryString
    {
      this.query := query;
      this.queryString := queryString;
    }

    /** filter: the conditions are merged into the query's, later keys winning. */
    method Filter()
      modifies this
      ensures query == old(query).(conditions := old(query).conditions + FilterConditions(queryString))
    {
      var queryObj := OmitFields(queryString, ExcludedFields);
      var parsed := RewriteAndWrap(queryObj, SearchFields);
      if "category" in parsed && parsed["category"] == Eq("all") {
        parsed := parsed - {"category"};
      }
      query := query.(conditions := query.conditions + parsed);
    }

    /** sort: the requested order with commas turned into spaces, newest first by default. */
    method Sort()
      modifies this
      ensures query == old(query).(sort := Some(SpaceList(queryString, "sort", "-createdAt")))
    {
      query := query.(sort := Some(SpaceList(queryString, "sort", "-createdAt")));
    }

    /** limitFields: the requested projection, or everything but the version key. */
    method LimitFields()
      modifies this
      ensures query == old(query).(projection := Some(SpaceList(queryString, "fields", "-__v")))
    {
      query := query.(projection := Some(SpaceList(queryString, "fields", "-__v")));
    }

    /** paginate: skip and limit of the page window. */
    method Paginate()
      modifies this
      ensures query == old(query).(skip := Some(Window(queryString).0), limit := Some(Window(queryString).1))
    {
      var page := NumberOr(queryString, "page", 1);
      var limit := NumberOr(queryString, "limit", 10);
      var skip := (page - 1) * limit;
      query := query.(skip := Some(skip), limit := Some(limit));
    }
  }
}
