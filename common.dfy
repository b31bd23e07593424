// Shared vocabulary of the model: optional values, results, parsed JSON
// values and the string operations that the Go and JavaScript code use.

module Common {

  datatype Option<T> = None | Some(value: T)

  datatype Result<T> = Ok(value: T) | Err(error: string)

  /** A JSON value after parsing. Numbers are integers in this model. */
  datatype Json =
    | JNull
    | JBool(b: bool)
    | JNum(n: int)
    | JStr(s: string)
    | JArr(items: seq<Json>)
    | JObj(fields: map<string, Json>)

  /** A Thymer line-item segment. */
  datatype Segment =
    | TextSeg(text: string)
    | BoldSeg(text: string)
    | ItalicSeg(text: string)
    | CodeSeg(text: string)
    | RefSeg(guid: string)
    | LinkSeg(text: string, url: string)

  /** What an HTTP handler writes: a status and a body. */
  datatype Body = NoBody | TextBody(text: string) | JsonBody(value: Json) | RawBody(raw: string)

  datatype Response = Response(status: int, body: Body)

  /** `http.Error`: the message followed by a newline, as plain text. */
  function HttpError(msg: string, status: int): (r: Response)
    ensures r.status == status && r.body == TextBody(msg + "\n")
  {
    Response(status, TextBody(msg + "\n"))
  }

  /** The field `key` of an object, if the value is an object holding it. */
  function Field(v: Json, key: string): (r: Option<Json>)
    ensures r.Some? <==> v.JObj? && key in v.fields
  {
    if v.JObj? && key in v.fields then Some(v.fields[key]) else None
  }

  /** JavaScript truthiness of a property read; None is `undefined`. */
  predicate Truthy(v: Option<Json>) {
    match v
    case None => false
    case Some(JNull) => false
    case Some(JBool(b)) => b
    case Some(JNum(n)) => n != 0
    case Some(JStr(s)) => s != ""
    case Some(_) => true
  }

  /** A string field, when present with string type. */
  function StrField(v: Json, key: string): (r: Option<string>)
    ensures r.Some? ==> Field(v, key) == Some(JStr(r.value))
  {
    match Field(v, key)
    case Some(JStr(s)) => Some(s)
    case _ => None
  }

  // ---------------------------------------------------------------------
  // Decoding a JSON body into a Go struct

  /** `json.Decode` into a struct: an object yields its fields, `null` leaves every
    * field at its zero value, anything else (or no JSON at all) is an error. */
  function DecodeStruct(body: Option<Json>): (r: Option<map<string, Json>>)
    ensures r.Some? <==> body.Some? && (body.value.JObj? || body.value.JNull?)
    ensures r.Some? && body.value.JObj? ==> r.value == body.value.fields
    ensures r.Some? && body.value.JNull? ==> r.value == map[]
  {
    if body.Some? && body.value.JObj? then Some(body.value.fields)
    else if body == Some(JNull) then Some(map[])
    else None
  }

  /** A field that decodes into a Go string: absent or null leaves "", a string is taken, anything else fails. */
  function DecodeStringField(m: map<string, Json>, key: string): (r: Option<string>)
    ensures r.None? <==> key in m && !(m[key].JNull? || m[key].JStr?)
    ensures r.Some? && key in m && m[key].JStr? ==> r.value == m[key].s
    ensures r.Some? && !(key in m && m[key].JStr?) ==> r.value == ""
  {
    if key !in m || m[key] == JNull then Some("")
    else if m[key].JStr? then Some(m[key].s)
    else None
  }

  /** A field that decodes into a Go bool: absent or null leaves false. */
  function DecodeBoolField(m: map<string, Json>, key: string): (r: Option<bool>)
    ensures r.None? <==> key in m && !(m[key].JNull? || m[key].JBool?)
    ensures r == Some(true) <==> key in m && m[key] == JBool(true)
  {
    if key !in m || m[key] == JNull then Some(false)
    else if m[key].JBool? then Some(m[key].b)
    else None
  }

  /** A field that decodes into a Go map: absent or null leaves a nil map (JNull here), an object is taken. */
  function DecodeObjectField(m: map<string, Json>, key: string): (r: Option<Json>)
    ensures r.None? <==> key in m && !(m[key].JNull? || m[key].JObj?)
    ensures r.Some? ==> r.value.JNull? || r.value.JObj?
    ensures r.Some? && key in m ==> r.value == m[key]
  {
    if key !in m || m[key] == JNull then Some(JNull)
    else if m[key].JObj? then Some(m[key])
    else None
  }

  /** Elements a Go string accepts: a string, or `null`, which leaves the element "". */
  predicate AllStringsOrNull(items: seq<Json>) {
    forall i :: 0 <= i < |items| ==> items[i].JStr? || items[i].JNull?
  }

  /** A field that decodes into a Go `[]string`: absent or null, or an array whose
    * elements are strings or null. */
  function DecodeStringsField(m: map<string, Json>, key: string): (r: Option<Json>)
    ensures r.None? <==> key in m && !(m[key].JNull? || (m[key].JArr? && AllStringsOrNull(m[key].items)))
  {
    if key !in m || m[key] == JNull then Some(JNull)
    else if m[key].JArr? && AllStringsOrNull(m[key].items) then Some(m[key])
    else None
  }

  // ---------------------------------------------------------------------
  // Characters and strings

  /** The characters JavaScript's `trim` and the regex class `\s` treat as white space. */
  predicate IsWs(c: char) {
    c == ' ' || c == '\t' || c == '\n' || c == '\r' || c == '\U{B}' || c == '\U{C}'
    || c == '\U{A0}' || c == '\U{1680}' || ('\U{2000}' <= c <= '\U{200A}')
    || c == '\U{2028}' || c == '\U{2029}' || c == '\U{202F}' || c == '\U{205F}'
    || c == '\U{3000}' || c == '\U{FEFF}'
  }

  /** The characters a regex `.` does not match, and `$` does not skip, without the `m` or `s` flags. */
  predicate IsLineTerminator(c: char) {
    c == '\n' || c == '\r' || c == '\U{2028}' || c == '\U{2029}'
  }

  /** The length of the run of white space in `s` starting at `i`. */
  function WsRun(s: string, i: nat): (n: nat)
    requires i <= |s|
    ensures i + n <= |s|
    decreases |s| - i
  {
    if i < |s| && IsWs(s[i]) then 1 + WsRun(s, i + 1) else 0
  }

  /** The length of the run of white space that ends at `j`. */
  function WsRunBack(s: string, j: nat): (n: nat)
    requires j <= |s|
    ensures n <= j
  {
    if 0 < j && IsWs(s[j - 1]) then 1 + WsRunBack(s, j - 1) else 0
  }

  /** The run of white space at `i` is maximal. */
  lemma {:induction false} WsRunSpan(s: string, i: nat)
    requires i <= |s|
    ensures forall j :: i <= j < i + WsRun(s, i) ==> IsWs(s[j])
    ensures i + WsRun(s, i) < |s| ==> !IsWs(s[i + WsRun(s, i)])
    decreases |s| - i
  {
    if i < |s| && IsWs(s[i]) { WsRunSpan(s, i + 1); }
  }

  /** A maximal run of white space of length `n` at `i` is what `WsRun` counts. */
  lemma {:induction false} WsRunIs(s: string, i: nat, n: nat)
    requires i + n <= |s| && (forall j :: i <= j < i + n ==> IsWs(s[j]))
    requires i + n < |s| ==> !IsWs(s[i + n])
    ensures WsRun(s, i) == n
    decreases n
  {
    if n > 0 { WsRunIs(s, i + 1, n - 1); }
  }

  predicate IsBlank(s: string) {
    forall i :: 0 <= i < |s| ==> IsWs(s[i])
  }

  function TrimStart(s: string): (r: string)
    ensures |r| <= |s| && r == s[|s| - |r|..]
    ensures r == [] || !IsWs(r[0])
    ensures IsBlank(s[..|s| - |r|])
  {
    if |s| > 0 && IsWs(s[0]) then
      var t := TrimStart(s[1..]);
      assert s[1..][..|s[1..]| - |t|] == s[1..|s| - |t|];
      t
    else s
  }

  function TrimEnd(s: string): (r: string)
    ensures |r| <= |s| && r == s[..|r|]
    ensures r == [] || !IsWs(r[|r| - 1])
    ensures IsBlank(s[|r|..])
  {
    if |s| > 0 && IsWs(s[|s| - 1]) then
      var t := TrimEnd(s[..|s| - 1]);
      assert s[..|s| - 1][|t|..] == s[|t|..|s| - 1];
      assert s[|t|..] == s[|t|..|s| - 1] + [s[|s| - 1]];
      BlankSnoc(s[|t|..|s| - 1], s[|s| - 1]);
      t
    else s
  }

  lemma BlankSnoc(a: string, c: char)
    requires IsBlank(a) && IsWs(c)
    ensures IsBlank(a + [c])
  {
    forall i | 0 <= i < |a + [c]| ensures IsWs((a + [c])[i]) {
      if i < |a| { assert (a + [c])[i] == a[i]; }
    }
  }

  /** JavaScript's `String.prototype.trim`. */
  function Trim(s: string): (r: string)
    ensures |r| <= |s|
    ensures r == [] || (!IsWs(r[0]) && !IsWs(r[|r| - 1]))
    ensures r == [] <==> IsBlank(s)
  {
    var t := TrimStart(s);
    var u := TrimEnd(t);
    assert u != [] ==> u[0] == t[0];
    assert t == [] ==> IsBlank(s) by {
      if t == [] { assert s[..|s|] == s; }
    }
    BlankWhenTrimsEmpty(s, t, u);
    u
  }

  /** The white-space run at `i` ends at the first character from `i` on that is not white space. */
  lemma {:induction false} WsRunOver(s: string, i: nat, j: nat)
    requires i <= j <= |s| && (j == |s| || !IsWs(s[j]))
    requires forall k :: i <= k < j ==> IsWs(s[k])
    ensures WsRun(s, i) == j - i
    decreases j - i
  {
    if i < j {
      WsRunOver(s, i + 1, j);
    }
  }

  lemma BlankWhenTrimsEmpty(s: string, t: string, u: string)
    requires t == TrimStart(s) && u == TrimEnd(t)
    ensures u == [] <==> IsBlank(s)
  {
    if u == [] {
      assert IsBlank(t[0..]);
      assert t[0..] == t;
      var k := |s| - |t|;
      assert t == s[k..];
      forall i | 0 <= i < |s| ensures IsWs(s[i]) {
        if i < k { assert s[..k][i] == s[i]; } else { assert t[i - k] == s[i]; }
      }
    } else {
      var k := |s| - |t|;
      assert t[0] == s[k];
      assert !IsWs(s[k]);
    }
  }

  predicate StartsWith(s: string, p: string) {
    |p| <= |s| && s[..|p|] == p
  }

  predicate EndsWith(s: string, p: string) {
    |p| <= |s| && s[|s| - |p|..] == p
  }

  /** `s.includes(p)`: `p` occurs somewhere in `s`. */
  predicate Contains(s: string, p: string) {
    exists i :: 0 <= i <= |s| - |p| && p <= s[i..]
  }

  /** ASCII case folding (the model does not fold letters outside ASCII). */
  function LowerChar(c: char): (r: char)
    ensures 'A' <= c <= 'Z' ==> 'a' <= r <= 'z'
    ensures !('A' <= c <= 'Z') ==> r == c
  {
    if 'A' <= c <= 'Z' then (c as int + 32) as char else c
  }

  function UpperChar(c: char): (r: char)
    ensures 'a' <= c <= 'z' ==> 'A' <= r <= 'Z'
    ensures !('a' <= c <= 'z') ==> r == c
  {
    if 'a' <= c <= 'z' then (c as int - 32) as char else c
  }

  function Lower(s: string): (r: string)
    ensures |r| == |s|
    ensures forall i :: 0 <= i < |s| ==> r[i] == LowerChar(s[i])
  {
    if s == [] then [] else [LowerChar(s[0])] + Lower(s[1..])
  }

  /** Case-insensitive `includes` as the plugins write it: both sides lower-cased. */
  predicate ContainsCi(s: string, p: string) {
    Contains(Lower(s), Lower(p))
  }

  /** `s.charAt(0).toUpperCase() + s.slice(1)`. */
  function Capitalize(s: string): (r: string)
    ensures |r| == |s|
    ensures s != [] ==> r[0] == UpperChar(s[0]) && r[1..] == s[1..]
  {
    if s == [] then [] else [UpperChar(s[0])] + s[1..]
  }

  /** `t?.toLowerCase().includes(part)` on an optional text field: false when the field is absent. */
  predicate HasText(t: Option<string>, part: string) {
    t.Some? && ContainsCi(t.value, part)
  }

  /** `s.slice(a, b)` for non-negative bounds: bounds past the end are clamped. */
  function Slice(s: string, a: nat, b: nat): (r: string)
    ensures a <= b <= |s| ==> r == s[a..b]
    ensures |r| <= |s| && (b <= a || |s| <= a ==> r == "")
  {
    var lo := if a <= |s| then a else |s|;
    var hi := if b <= |s| then b else |s|;
    if lo <= hi then s[lo..hi] else ""
  }

  // ---------------------------------------------------------------------
  // Choice fields: labels shown to people, ids stored by Thymer

  /** A `LABEL_TO_ID` table: (name, id) pairs in declaration order. */
  type LabelMap = seq<(string, string)>

  /** The entry a name keys, as `map[name]` finds it. */
  function LabelIndex(m: LabelMap, name: string): (r: Option<nat>)
    ensures r.Some? ==> r.value < |m| && m[r.value].0 == name
    ensures r.Some? ==> forall j :: 0 <= j < r.value ==> m[j].0 != name
    ensures r.None? ==> forall j :: 0 <= j < |m| ==> m[j].0 != name
  {
    if m == [] then None
    else if m[0].0 == name then Some(0)
    else match LabelIndex(m[1..], name)
      case None => None
      case Some(k) => Some(k + 1)
  }

  /** `map[name] || name.toLowerCase()`. */
  function LabelToId(m: LabelMap, name: string): (r: string)
    ensures LabelIndex(m, name).None? ==> r == Lower(name)
    ensures LabelIndex(m, name).Some? && m[LabelIndex(m, name).value].1 != "" ==> r == m[LabelIndex(m, name).value].1
  {
    match LabelIndex(m, name)
    case Some(k) => if m[k].1 != "" then m[k].1 else Lower(name)
    case None => Lower(name)
  }

  /** The first entry whose id is `id`, exactly or once `id` is lower-cased. */
  function IdIndex(m: LabelMap, id: string): (r: Option<nat>)
    ensures r.Some? ==> r.value < |m| && (m[r.value].1 == id || Lower(id) == m[r.value].1)
    ensures r.Some? ==> forall j :: 0 <= j < r.value ==> m[j].1 != id && Lower(id) != m[j].1
    ensures r.None? ==> forall j :: 0 <= j < |m| ==> m[j].1 != id && Lower(id) != m[j].1
  {
    if m == [] then None
    else if m[0].1 == id || Lower(id) == m[0].1 then Some(0)
    else match IdIndex(m[1..], id)
      case None => None
      case Some(k) => Some(k + 1)
  }

  /** `idToLabel`: null for a missing id, the table's name, else the id capitalised. */
  function IdToLabel(m: LabelMap, id: Option<string>): (r: Option<string>)
    ensures r.None? <==> !Given(id)
    ensures Given(id) && IdIndex(m, id.value).None? ==> r == Some(Capitalize(id.value))
    ensures Given(id) && IdIndex(m, id.value).Some? ==> r == Some(m[IdIndex(m, id.value).value].0)
  {
    if !Given(id) then None
    else match IdIndex(m, id.value)
      case Some(k) => Some(m[k].0)
      case None => Some(Capitalize(id.value))
  }

  /** `choiceMatches`: a stored choice against a name or id, ignoring case. */
  predicate ChoiceMatches(m: LabelMap, choice: Option<string>, target: string) {
    Given(choice) &&
    var targetId := LabelToId(m, target);
    choice.value == targetId || Lower(choice.value) == Lower(targetId)
  }

  /** Text with no upper-case ASCII letter. */
  predicate LowerCase(s: string) {
    forall i :: 0 <= i < |s| ==> !('A' <= s[i] <= 'Z')
  }

  lemma LowerOfLowerCase(s: string)
    requires LowerCase(s)
    ensures Lower(s) == s
  {
  }

  lemma {:induction false} LowerIdempotent(s: string)
    ensures Lower(Lower(s)) == Lower(s)
  {
    LowerOfLowerCase(Lower(s));
  }

  /** Distinct labels, distinct non-empty lower-case ids, and no id that is also a label. */
  predicate WellFormedLabels(m: LabelMap) {
    LowerCaseIds(m) && DistinctEntries(m) && IdsAreNotLabels(m)
  }

  predicate LowerCaseIds(m: LabelMap) {
    forall j :: 0 <= j < |m| ==> m[j].1 != "" && LowerCase(m[j].1)
  }

  predicate DistinctEntries(m: LabelMap) {
    forall i, j :: 0 <= i < j < |m| ==> m[i].0 != m[j].0 && m[i].1 != m[j].1
  }

  predicate IdsAreNotLabels(m: LabelMap) {
    forall i, j :: 0 <= i < |m| && 0 <= j < |m| ==> m[i].1 != m[j].0
  }

  /** An id decodes to its name in any letter case. */
  lemma IdToLabelIgnoresCase(m: LabelMap, k: nat, id: string)
    requires WellFormedLabels(m) && k < |m| && Lower(id) == m[k].1
    ensures IdToLabel(m, Some(id)) == Some(m[k].0)
  {
    forall j | 0 <= j < k
      ensures m[j].1 != id && Lower(id) != m[j].1
    {
      if m[j].1 == id {
        LowerOfLowerCase(m[j].1);
      }
    }
    IdIndexIs(m, id, k);
  }

  lemma {:induction false} IdIndexIs(m: LabelMap, id: string, k: nat)
    requires k < |m| && (m[k].1 == id || Lower(id) == m[k].1)
    requires forall j :: 0 <= j < k ==> m[j].1 != id && Lower(id) != m[j].1
    ensures IdIndex(m, id) == Some(k)
  {
    if k > 0 {
      IdIndexIs(m[1..], id, k - 1);
    }
  }

  lemma {:induction false} LabelIndexIs(m: LabelMap, name: string, k: nat)
    requires k < |m| && m[k].0 == name
    requires forall j :: 0 <= j < k ==> m[j].0 != name
    ensures LabelIndex(m, name) == Some(k)
  {
    if k > 0 {
      LabelIndexIs(m[1..], name, k - 1);
    }
  }

  /** Every label of a well-formed table survives `labelToId` then `idToLabel`. */
  lemma LabelRoundTrip(m: LabelMap, k: nat)
    requires WellFormedLabels(m) && k < |m|
    ensures LabelToId(m, m[k].0) == m[k].1
    ensures IdToLabel(m, Some(LabelToId(m, m[k].0))) == Some(m[k].0)
  {
    LabelIndexIs(m, m[k].0, k);
    LowerOfLowerCase(m[k].1);
    IdToLabelIgnoresCase(m, k, m[k].1);
  }

  /** A filter names a choice by its name or by its id alike. */
  lemma LabelOrIdMatches(m: LabelMap, k: nat, choice: Option<string>)
    requires WellFormedLabels(m) && k < |m|
    ensures LabelToId(m, m[k].1) == m[k].1
    ensures ChoiceMatches(m, choice, m[k].0) <==> ChoiceMatches(m, choice, m[k].1)
  {
    LabelIndexIs(m, m[k].0, k);
    LowerOfLowerCase(m[k].1);
  }

  /** A stored choice matches a target when their lower-cased ids agree, and only then. */
  lemma ChoiceMatchesIgnoresCase(m: LabelMap, choice: Option<string>, target: string)
    ensures ChoiceMatches(m, choice, target) <==> Given(choice) && Lower(choice.value) == Lower(LabelToId(m, target))
  {
  }

  // ---------------------------------------------------------------------
  // Decimal numerals

  /** A JavaScript value that is a non-empty string. */
  predicate Given(o: Option<string>) {
    o.Some? && o.value != ""
  }

  /** `value || ''`. */
  function OrEmpty(o: Option<string>): (r: string)
    ensures r != "" <==> Given(o)
  {
    if o.Some? then o.value else ""
  }

  /** `value || fallback` for a string value. */
  function OrText(o: Option<string>, fallback: string): (r: string)
    ensures Given(o) ==> r == o.value
    ensures !Given(o) ==> r == fallback
  {
    if Given(o) then o.value else fallback
  }

  /** The OAuth config the auth flow stores for a Google plugin: refresh token and token endpoint. */
  datatype TokenData = TokenData(refreshToken: Option<string>, tokenEndpoint: Option<string>)

  /** `config.refresh_token && config.token_endpoint`. */
  predicate ValidToken(t: TokenData) {
    Given(t.refreshToken) && Given(t.tokenEndpoint)
  }

  predicate IsDigit(c: char) { '0' <= c <= '9' }

  predicate AllDigits(s: string) {
    forall i :: 0 <= i < |s| ==> IsDigit(s[i])
  }

  function DigitChar(d: nat): (c: char)
    requires d < 10
    ensures IsDigit(c) && c as int - '0' as int == d
  {
    ('0' as int + d) as char
  }

  function DigitVal(c: char): (d: nat)
    requires IsDigit(c)
    ensures d < 10 && DigitChar(d) == c
  {
    c as int - '0' as int
  }

  /** `String(n)` for a natural number: shortest decimal form. */
  function NatToString(n: nat): (s: string)
    ensures |s| > 0 && AllDigits(s)
    ensures |s| > 1 ==> s[0] != '0'
    decreases n
  {
    if n < 10 then [DigitChar(n)] else NatToString(n / 10) + [DigitChar(n % 10)]
  }

  /** `String(n)` for an integer. */
  function IntToString(n: int): (s: string)
    ensures |s| > 0
    ensures n >= 0 ==> s == NatToString(n)
  {
    if n < 0 then "-" + NatToString(-n) else NatToString(n)
  }

  /** The value of a string of decimal digits (`parseInt` on digits only). */
  function ParseNat(s: string): (n: nat)
    requires AllDigits(s)
  {
    if s == [] then 0 else ParseNat(s[..|s| - 1]) * 10 + DigitVal(s[|s| - 1])
  }

  lemma {:induction false} ParseNatOfNatToString(n: nat)
    ensures ParseNat(NatToString(n)) == n
    decreases n
  {
    var s := NatToString(n);
    if n >= 10 {
      ParseNatOfNatToString(n / 10);
      assert s[..|s| - 1] == NatToString(n / 10);
    }
  }

  lemma NatToStringInjective(a: nat, b: nat)
    requires NatToString(a) == NatToString(b)
    ensures a == b
  {
    ParseNatOfNatToString(a);
    ParseNatOfNatToString(b);
  }

  /** `String(n).padStart(2, '0')`. */
  function Pad2(n: nat): (s: string)
    ensures AllDigits(s) && |s| >= 2
  {
    if n < 10 then ['0', DigitChar(n)] else NatToString(n)
  }

  /** Two-digit values survive padding and parsing. */
  lemma Pad2RoundTrip(n: nat)
    requires n < 100
    ensures |Pad2(n)| == 2 && ParseNat(Pad2(n)) == n
  {
    var s := Pad2(n);
    if n < 10 {
      assert s[..1] == ['0'];
      assert ['0'][..0] == [];
      assert ParseNat(['0']) == 0;
    } else {
      assert NatToString(n / 10) == [DigitChar(n / 10)];
      ParseNatOfNatToString(n);
    }
  }

  /** `parts.join(sep)`. */
  function Join(parts: seq<string>, sep: string): (r: string)
    ensures |parts| == 1 ==> r == parts[0]
  {
    if parts == [] then ""
    else if |parts| == 1 then parts[0]
    else parts[0] + sep + Join(parts[1..], sep)
  }

  /** A join starts with its first part. */
  lemma JoinHead(parts: seq<string>, sep: string)
    requires parts != []
    ensures |Join(parts, sep)| >= |parts[0]| && Join(parts, sep)[..|parts[0]|] == parts[0]
  {
    if |parts| > 1 {
      assert Join(parts, sep) == parts[0] + (sep + Join(parts[1..], sep));
    }
  }

  /** `s.split(sep)` for a one-character separator: always at least one part. */
  function Split(s: string, sep: char): (r: seq<string>)
    ensures |r| >= 1
    ensures forall k :: 0 <= k < |r| ==> sep !in r[k]
  {
    if s == [] then [""]
    else if s[0] == sep then [""] + Split(s[1..], sep)
    else var t := Split(s[1..], sep); [[s[0]] + t[0]] + t[1..]
  }

  /** Splitting at an inserted separator splits the two sides independently. */
  lemma {:induction false} SplitConcat(a: string, sep: char, b: string)
    ensures Split(a + [sep] + b, sep) == Split(a, sep) + Split(b, sep)
  {
    var s := a + [sep] + b;
    if a == [] {
      assert s[0] == sep && s[1..] == b;
    } else {
      assert s[0] == a[0] && s[1..] == a[1..] + [sep] + b;
      SplitConcat(a[1..], sep, b);
      if a[0] != sep {
        ConsPart(a[0], Split(a[1..], sep), Split(b, sep));
      }
    }
  }

  /** The first character joins the first part: the step `Split` takes on a non-separator. */
  lemma ConsPart(c: char, u: seq<string>, v: seq<string>)
    requires u != []
    ensures [[c] + (u + v)[0]] + (u + v)[1..] == ([[c] + u[0]] + u[1..]) + v
  {
    assert (u + v)[0] == u[0];
    assert (u + v)[1..] == u[1..] + v;
  }

  /** A string without the separator is a single part. */
  lemma {:induction false} SplitWithout(s: string, sep: char)
    requires sep !in s
    ensures Split(s, sep) == [s]
  {
    if s != [] {
      assert sep !in s[1..];
      SplitWithout(s[1..], sep);
      assert s == [s[0]] + s[1..];
    }
  }

  /** Joining the parts with the separator gives the string back. */
  lemma {:induction false} SplitJoin(s: string, sep: char)
    ensures Join(Split(s, sep), [sep]) == s
  {
    if s != [] {
      SplitJoin(s[1..], sep);
      var t := Split(s[1..], sep);
      if s[0] == sep {
        assert Split(s, sep) == [""] + t;
        assert ([""] + t)[1..] == t;
      } else {
        var r := Split(s, sep);
        assert r[1..] == t[1..];
        if |t| > 1 {
          assert t == [t[0]] + t[1..];
        }
      }
    }
  }

  // ---------------------------------------------------------------------
  // Ordering and sorting

  /** Code-point lexicographic order, standing in for `localeCompare(...) <= 0`. */
  predicate StrLe(a: string, b: string) {
    a == [] || (b != [] && (a[0] < b[0] || (a[0] == b[0] && StrLe(a[1..], b[1..]))))
  }

  lemma {:induction false} StrLeTotal(a: string, b: string)
    ensures StrLe(a, b) || StrLe(b, a)
  {
    if a != [] && b != [] && a[0] == b[0] {
      StrLeTotal(a[1..], b[1..]);
    }
  }

  lemma StrLeAllTotal()
    ensures forall a: string, b: string :: StrLe(a, b) || StrLe(b, a)
  {
    forall a: string, b: string
      ensures StrLe(a, b) || StrLe(b, a)
    {
      StrLeTotal(a, b);
    }
  }

  /** Comparing two texts with prefixes of equal length: the prefixes decide unless they are equal. */
  lemma {:induction false} StrLeConcat(x: string, u: string, y: string, v: string)
    requires |x| == |y|
    ensures StrLe(x + u, y + v) <==> if x == y then StrLe(u, v) else StrLe(x, y)
  {
    if x == [] {
      assert x + u == u && y + v == v;
    } else {
      assert (x + u)[0] == x[0] && (y + v)[0] == y[0];
      assert (x + u)[1..] == x[1..] + u && (y + v)[1..] == y[1..] + v;
      StrLeConcat(x[1..], u, y[1..], v);
      assert x == [x[0]] + x[1..] && y == [y[0]] + y[1..];
    }
  }

  /** A comparison is usable by `SortBy` when any two elements are comparable. */
  ghost predicate Total<T(!new)>(le: (T, T) -> bool) {
    forall a, b :: le(a, b) || le(b, a)
  }

  /** Neighbours are in order. */
  predicate SortedBy<T>(s: seq<T>, le: (T, T) -> bool) {
    forall i :: 0 < i < |s| ==> le(s[i - 1], s[i])
  }

  /** Place x after every trailing element it does not precede: equal elements keep their order. */
  function InsertBy<T(!new)>(s: seq<T>, x: T, le: (T, T) -> bool): (r: seq<T>)
    requires Total(le) && SortedBy(s, le)
    ensures multiset(r) == multiset(s) + multiset{x}
    ensures SortedBy(r, le) && |r| == |s| + 1
    ensures r[|r| - 1] == x || (s != [] && r[|r| - 1] == s[|s| - 1])
  {
    if s == [] || le(s[|s| - 1], x) then s + [x]
    else
      var n := |s| - 1;
      var t := InsertBy(s[..n], x, le);
      assert s == s[..n] + [s[n]];
      assert le(x, s[n]);
      t + [s[n]]
  }

  /**
   * `array.sort(compare)`: a stable sort, here an insertion sort; `le(a, b)` holds when the
   * comparison of a with b is not positive.
   */
  function SortBy<T(!new)>(s: seq<T>, le: (T, T) -> bool): (r: seq<T>)
    requires Total(le)
    ensures multiset(r) == multiset(s) && |r| == |s|
    ensures SortedBy(r, le)
  {
    if s == [] then []
    else
      var n := |s| - 1;
      assert s == s[..n] + [s[n]];
      InsertBy(SortBy(s[..n], le), s[n], le)
  }

  function MinInt(a: int, b: int): int { if a <= b then a else b }
  function MaxInt(a: int, b: int): int { if a >= b then a else b }

  /** `arr.slice(0, n)`. */
  function Take<T>(s: seq<T>, n: nat): (r: seq<T>)
    ensures |r| == MinInt(|s|, n) && r == s[..|r|]
  {
    if n <= |s| then s[..n] else s
  }

  /** `arr.slice(0, n)` for any integer n: a negative end counts from the back. */
  function SliceTo<T>(s: seq<T>, n: int): (r: seq<T>)
    ensures n >= 0 ==> |r| == MinInt(|s|, n)
    ensures n < 0 ==> |r| == MaxInt(0, |s| + n)
    ensures r == s[..|r|]
  {
    if n >= 0 then Take(s, n) else s[..MaxInt(0, |s| + n)]
  }

  /** `args.limit || n`: an absent or zero limit means the default. */
  function LimitOr(limit: Option<int>, default: nat): (r: int)
    ensures limit.None? || limit.value == 0 ==> r == default
    ensures limit.Some? && limit.value != 0 ==> r == limit.value
  {
    if limit.None? || limit.value == 0 then default else limit.value
  }

  /** A prefix of a sorted sequence is sorted. */
  lemma PrefixSorted<T>(s: seq<T>, le: (T, T) -> bool, n: nat)
    requires SortedBy(s, le) && n <= |s|
    ensures SortedBy(s[..n], le)
  {
    forall i | 0 < i < n
      ensures le(s[..n][i - 1], s[..n][i])
    {
      assert s[..n][i - 1] == s[i - 1] && s[..n][i] == s[i];
    }
  }

  /** `arr.sort(cmp).slice(0, n)`: the first elements of the sorted list, each taken from `s`. */
  function SortedSlice<T(!new)>(s: seq<T>, le: (T, T) -> bool, n: int): (r: seq<T>)
    requires Total(le)
    ensures n >= 0 ==> |r| == MinInt(|s|, n)
    ensures n < 0 ==> |r| == MaxInt(0, |s| + n)
    ensures |r| <= |s| && SortedBy(r, le) && r == SortBy(s, le)[..|r|]
    ensures multiset(r) <= multiset(s)
  {
    var sorted := SortBy(s, le);
    var r := SliceTo(sorted, n);
    PrefixSorted(sorted, le, |r|);
    assert sorted == r + sorted[|r|..];
    r
  }

  /** `arr.filter(p)`: the elements that satisfy p, in their original order. */
  function Filter<T(!new)>(s: seq<T>, p: T -> bool): (r: seq<T>)
    ensures |r| <= |s| && multiset(r) <= multiset(s)
    ensures forall x :: x in r <==> x in s && p(x)
  {
    if s == [] then []
    else
      assert s == [s[0]] + s[1..];
      var rest := Filter(s[1..], p);
      if p(s[0]) then [s[0]] + rest else rest
  }

  /** `arr.find(p)`, as the index of the first element that satisfies p. */
  function FirstWhere<T>(s: seq<T>, p: T -> bool): (r: Option<nat>)
    ensures r.Some? ==> r.value < |s| && p(s[r.value])
    ensures r.Some? ==> forall j :: 0 <= j < r.value ==> !p(s[j])
    ensures r.None? ==> forall j :: 0 <= j < |s| ==> !p(s[j])
  {
    if s == [] then None
    else if p(s[0]) then Some(0)
    else match FirstWhere(s[1..], p)
      case None => None
      case Some(k) => Some(k + 1)
  }

  /** Filtering a concatenation filters each part: the kept elements keep their order. */
  lemma {:induction false} FilterAppend<T(!new)>(a: seq<T>, b: seq<T>, p: T -> bool)
    ensures Filter(a + b, p) == Filter(a, p) + Filter(b, p)
  {
    if a == [] {
      assert a + b == b;
    } else {
      assert (a + b)[0] == a[0];
      assert (a + b)[1..] == a[1..] + b;
      FilterAppend(a[1..], b, p);
    }
  }

  /** Every element satisfies p exactly when the filter keeps them all. */
  lemma {:induction false} FilterKeepsAll<T(!new)>(s: seq<T>, p: T -> bool)
    ensures Filter(s, p) == s <==> forall x :: x in s ==> p(x)
  {
    if s != [] {
      assert s == [s[0]] + s[1..];
      FilterKeepsAll(s[1..], p);
      if !p(s[0]) {
        assert |Filter(s, p)| < |s|;
      }
    }
  }

  /** A comparison whose order carries over: a before b before c puts a before c. */
  ghost predicate Transitive<T(!new)>(le: (T, T) -> bool) {
    forall a, b, c :: le(a, b) && le(b, c) ==> le(a, c)
  }

  /** In a sequence sorted by a transitive order, every element precedes every later one. */
  lemma {:induction false} SortedPairs<T(!new)>(s: seq<T>, le: (T, T) -> bool, i: nat, j: nat)
    requires Transitive(le) && SortedBy(s, le) && i < j < |s|
    ensures le(s[i], s[j])
    decreases j - i
  {
    if i + 1 < j {
      SortedPairs(s, le, i + 1, j);
      assert le(s[i], s[i + 1]);
    }
  }

  // ---------------------------------------------------------------------
  // Relative times

  /** How long ago something happened, in the unit `formatRelativeTime` shows. */
  datatype Age = JustNow | MinutesAgo(n: nat) | HoursAgo(n: nat) | DaysAgo(n: nat)

  /** The age of an event `seconds` seconds old (negative ages are "just now"). */
  function AgeOf(seconds: int): (a: Age)
    ensures a.JustNow? <==> seconds < 60
    ensures a.MinutesAgo? ==> 1 <= a.n < 60 && a.n * 60 <= seconds < a.n * 60 + 60
    ensures a.HoursAgo? ==> 1 <= a.n < 24 && a.n * 3600 <= seconds < a.n * 3600 + 3600
    ensures a.DaysAgo? ==> 1 <= a.n && a.n * 86400 <= seconds < a.n * 86400 + 86400
  {
    if seconds < 60 then JustNow
    else if seconds < 3600 then MinutesAgo(seconds / 60)
    else if seconds < 86400 then HoursAgo(seconds / 3600)
    else DaysAgo(seconds / 86400)
  }

  function AgeText(a: Age): string {
    match a
    case JustNow => "just now"
    case MinutesAgo(n) => NatToString(n) + "m ago"
    case HoursAgo(n) => NatToString(n) + "h ago"
    case DaysAgo(n) => NatToString(n) + "d ago"
  }

  /** `formatRelativeTime`: `now` and `then` in milliseconds; `Math.floor` is Dafny's
    * division for a positive divisor. */
  function FormatRelativeTime(now: int, at: int): string {
    AgeText(AgeOf((now - at) / 1000))
  }
}
