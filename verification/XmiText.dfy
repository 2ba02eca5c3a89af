/** The texts inside an XMI document: canonical ids, references, hrefs, keywords and escaped values. */
module XmiText {

  import opened Wrappers
  import opened Integrity

  /** What an implementation chooses: the digest of an id, the case folding and the order of ids. */
  datatype Env = Env(digest: string -> string, fold: string -> string, before: (string, string) -> bool)

  predicate IsHex(c: char) { '0' <= c <= '9' || 'a' <= c <= 'f' }

  predicate IsDigest(s: string) { |s| == 40 && forall i :: 0 <= i < 40 ==> IsHex(s[i]) }

  datatype IdKind =
    | ModelId | ClassifierId | AttributeId | OperationId | ParameterId | RelationshipId | EndId | DataTypeId

  function KindText(k: IdKind): string {
    match k
    case ModelId => "model"
    case ClassifierId => "classifier"
    case AttributeId => "attribute"
    case OperationId => "operation"
    case ParameterId => "parameter"
    case RelationshipId => "relationship"
    case EndId => "association_end"
    case DataTypeId => "data_type"
  }

  function Prefix(k: IdKind): string { "xmi_" + KindText(k) + "_" }

  predicate IsCanonicalId(k: IdKind, id: string) { Prefix(k) <= id && IsDigest(id[|Prefix(k)|..]) }

  /** An id of the profile stays as it is; any other id is hashed together with its kind. */
  function CanonicalId(env: Env, k: IdKind, id: string): string {
    if IsCanonicalId(k, id) then id else Prefix(k) + env.digest(KindText(k) + "/" + id)
  }

  ghost predicate DigestsAreHex(env: Env) {
    forall s: string :: IsDigest(env.digest(s))
  }

  lemma CanonicalIdIsCanonical(env: Env, k: IdKind, id: string)
    requires DigestsAreHex(env)
    ensures IsCanonicalId(k, CanonicalId(env, k, id))
  {
    var digest := env.digest(KindText(k) + "/" + id);
    assert (Prefix(k) + digest)[|Prefix(k)|..] == digest;
  }

  /** Importing an exported id does not change it. */
  lemma CanonicalIdIsStable(env: Env, k: IdKind, id: string)
    requires DigestsAreHex(env)
    ensures CanonicalId(env, k, CanonicalId(env, k, id)) == CanonicalId(env, k, id)
  {
    CanonicalIdIsCanonical(env, k, id);
  }

  lemma KindTextsDiffer(k: IdKind, l: IdKind)
    requires k != l && |KindText(k)| == |KindText(l)|
    ensures KindText(k)[0] != KindText(l)[0]
  {
  }

  /** Ids of different kinds never meet. */
  lemma CanonicalIdsOfKindsDiffer(env: Env, k: IdKind, a: string, l: IdKind, b: string)
    requires DigestsAreHex(env) && k != l
    ensures CanonicalId(env, k, a) != CanonicalId(env, l, b)
  {
    CanonicalIdIsCanonical(env, k, a);
    CanonicalIdIsCanonical(env, l, b);
    var x, y := CanonicalId(env, k, a), CanonicalId(env, l, b);
    assert x[4] == Prefix(k)[4] == KindText(k)[0];
    assert y[4] == Prefix(l)[4] == KindText(l)[0];
    if |KindText(k)| == |KindText(l)| { KindTextsDiffer(k, l); }
  }

  predicate IdChar(c: char) { IsHex(c) || 'g' <= c <= 'z' || c == '_' }

  lemma KindTextIsPlain(k: IdKind)
    ensures forall c :: c in KindText(k) ==> IdChar(c)
  {
  }

  lemma CanonicalIdIsPlain(env: Env, k: IdKind, id: string)
    requires DigestsAreHex(env)
    ensures CanonicalId(env, k, id) != "" && forall c :: c in CanonicalId(env, k, id) ==> IdChar(c)
  {
    CanonicalIdIsCanonical(env, k, id);
    KindTextIsPlain(k);
    var x := CanonicalId(env, k, id);
    assert x == Prefix(k) + x[|Prefix(k)|..];
    assert forall c :: c in "xmi_" ==> IdChar(c);
  }

  // References separated by white space.

  function Words(s: string): seq<string> {
    if s == "" then []
    else if IsSpace(s[0]) then Words(s[1..])
    else if |s| == 1 || IsSpace(s[1]) then [[s[0]]] + Words(s[1..])
    else
      var rest := Words(s[1..]);
      if rest == [] then [[s[0]]] else [[s[0]] + rest[0]] + rest[1..]
  }

  predicate IsWord(s: string) { s != "" && forall c :: c in s ==> !IsSpace(c) }

  lemma {:induction false} WordsOfOne(a: string)
    requires IsWord(a)
    ensures Words(a) == [a]
  {
    if |a| > 1 {
      WordsOfOne(a[1..]);
      assert a == [a[0]] + a[1..];
    } else {
      assert a == [a[0]] && a[1..] == "";
    }
  }

  lemma {:induction false} WordsOfTwo(a: string, b: string)
    requires IsWord(a) && IsWord(b)
    ensures Words(a + " " + b) == [a, b]
  {
    var s := a + " " + b;
    assert s[0] == a[0] && s[1..] == a[1..] + " " + b;
    if |a| > 1 {
      WordsOfTwo(a[1..], b);
      assert s[1] == a[1];
      assert a == [a[0]] + a[1..];
    } else {
      assert a == [a[0]] && s[1..] == " " + b && s[1] == ' ';
      assert s[1..][0] == ' ' && s[1..][1..] == b;
      WordsOfOne(b);
    }
  }

  lemma PlainIsWord(s: string)
    requires s != "" && forall c :: c in s ==> IdChar(c)
    ensures IsWord(s)
  {
  }

  // Hrefs.

  const HOST := "http://www.omg.org/"
  const FOLDER := "spec/UML/20161101/"
  const FILE := "PrimitiveTypes.xmi#"
  const PRIMITIVES := HOST + FOLDER + FILE

  predicate IsSeparator(c: char) { c == '#' || c == '/' }

  /** The part after the last separator. */
  function Fragment(s: string): string {
    if s == "" || IsSeparator(s[|s| - 1]) then "" else Fragment(s[..|s| - 1]) + [s[|s| - 1]]
  }

  lemma {:induction false} FragmentOf(start: string, name: string)
    requires start != "" && IsSeparator(start[|start| - 1]) && forall c :: c in name ==> !IsSeparator(c)
    ensures Fragment(start + name) == name
  {
    var s := start + name;
    if name == "" {
      assert s == start;
    } else {
      var n := |name| - 1;
      assert s[|s| - 1] == name[n] && s[..|s| - 1] == start + name[..n];
      assert name[n] in name;
      FragmentOf(start, name[..n]);
      assert name == name[..n] + [name[n]];
    }
  }

  // Keywords.

  function BoolText(b: bool): string { if b then "true" else "false" }

  /** None when the text is no boolean. */
  function ParseBool(s: string): Option<bool> {
    if s == "true" || s == "1" then Some(true)
    else if s == "false" || s == "0" then Some(false)
    else None
  }

  lemma BoolRoundTrip(b: bool)
    ensures ParseBool(BoolText(b)) == Some(b)
  {
    assert |"true"| != |"false"| && |"1"| == 1;
  }

  // Attribute values in the text of the document.

  predicate HasLineSpace(s: string) { exists c :: c in s && (c == '\t' || c == '\n' || c == '\r') }

  /** Attribute values that survive the attribute normalisation of section 3.3.3 of XML 1.0. */
  predicate Writable(s: string) { XmlSafe(s) && !HasLineSpace(s) }

  function EscapeChar(c: char): string {
    if c == '&' then "&amp;"
    else if c == '<' then "&lt;"
    else if c == '>' then "&gt;"
    else if c == '"' then "&quot;"
    else if c == '\'' then "&apos;"
    else [c]
  }

  function Escape(s: string): string {
    if s == "" then "" else EscapeChar(s[0]) + Escape(s[1..])
  }

  /** The reader's side: predefined entities are decoded, any other & is an error. */
  function Unescape(s: string): Option<string> {
    if s == "" then Some("")
    else if "&amp;" <= s then Prepend('&', Unescape(s[5..]))
    else if "&lt;" <= s then Prepend('<', Unescape(s[4..]))
    else if "&gt;" <= s then Prepend('>', Unescape(s[4..]))
    else if "&quot;" <= s then Prepend('"', Unescape(s[6..]))
    else if "&apos;" <= s then Prepend('\'', Unescape(s[6..]))
    else if s[0] == '&' then None
    else Prepend(s[0], Unescape(s[1..]))
  }

  function Prepend(c: char, s: Option<string>): Option<string> {
    if s.None? then None else Some([c] + s.value)
  }

  lemma UnescapeOne(c: char, rest: string)
    ensures Unescape(EscapeChar(c) + rest) == Prepend(c, Unescape(rest))
  {
    var head := EscapeChar(c);
    var s := head + rest;
    assert s[|head|..] == rest;
    assert forall i :: 0 <= i < |head| ==> s[i] == head[i];
    if head == [c] {
      assert s[0] != '&';
    } else {
      assert head <= s;
      assert "&amp;"[1] == 'a' && "&lt;"[1] == 'l' && "&gt;"[1] == 'g' && "&quot;"[1] == 'q' && "&apos;"[1] == 'a';
      assert "&amp;"[2] == 'm' && "&apos;"[2] == 'p';
      assert s[1] == head[1] && s[2] == head[2];
    }
  }

  lemma EscapedCharIsSafe(c: char)
    ensures forall x :: x in EscapeChar(c) ==> x != '"' && x != '<' && x != '>'
  {
  }

  lemma {:induction false} EscapedTextIsSafe(s: string)
    ensures forall c :: c in Escape(s) ==> c != '"' && c != '<' && c != '>'
  {
    if s != "" {
      EscapedTextIsSafe(s[1..]);
      EscapedCharIsSafe(s[0]);
    }
  }

  lemma {:induction false} EscapedTextIsReadBack(s: string)
    ensures Unescape(Escape(s)) == Some(s)
  {
    if s != "" {
      EscapedTextIsReadBack(s[1..]);
      UnescapeOne(s[0], Escape(s[1..]));
      assert Prepend(s[0], Some(s[1..])) == Some(s) by { assert [s[0]] + s[1..] == s; }
    }
  }

  /** Escaped text is read back, and contains neither a quote nor a tag delimiter. */
  lemma EscapeRoundTrip(s: string)
    ensures Unescape(Escape(s)) == Some(s)
    ensures forall c :: c in Escape(s) ==> c != '"' && c != '<' && c != '>'
  {
    EscapedTextIsReadBack(s);
    EscapedTextIsSafe(s);
  }
}
