/** `extractCookieValue`: the value of a cookie in a Cookie header. `decode` is decodeURIComponent,
    which may throw. */
module Cookies {
  import opened Options
  import opened Text

  // ----- split and join -----

  /** `s.split(sep)` for a one-character separator: never empty. */
  function Split(s: string, sep: char): (parts: seq<string>)
    ensures |parts| >= 1
  {
    if s == "" then [""]
    else
      var rest := Split(s[1..], sep);
      if s[0] == sep then [""] + rest else [[s[0]] + rest[0]] + rest[1..]
  }

  /** `parts.join(sep)` */
  function Join(parts: seq<string>, sep: string): string {
    if parts == [] then ""
    else if |parts| == 1 then parts[0]
    else parts[0] + sep + Join(parts[1..], sep)
  }

  lemma {:induction false} SplitFirst(a: string, b: string, sep: char)
    requires sep !in a
    ensures Split(a + [sep] + b, sep) == [a] + Split(b, sep)
  {
    var s := a + [sep] + b;
    if a == "" {
      assert s[0] == sep && s[1..] == b;
    } else {
      assert s[0] == a[0] && s[1..] == a[1..] + [sep] + b;
      SplitFirst(a[1..], b, sep);
      assert [a[0]] + a[1..] == a;
    }
  }

  lemma {:induction false} SplitNone(a: string, sep: char)
    requires sep !in a
    ensures Split(a, sep) == [a]
  {
    if a != "" {
      SplitNone(a[1..], sep);
      assert [a[0]] + a[1..] == a;
    }
  }

  lemma {:induction false} JoinSplit(s: string, sep: char)
    ensures Join(Split(s, sep), [sep]) == s
  {
    if s != "" {
      var rest := Split(s[1..], sep);
      JoinSplit(s[1..], sep);
      if s[0] == sep {
        assert ([""] + rest)[1..] == rest;
        assert Join([""] + rest, [sep]) == "" + [sep] + s[1..];
      } else {
        var parts := [[s[0]] + rest[0]] + rest[1..];
        assert parts[1..] == rest[1..];
        JoinPrefix(rest, [s[0]], [sep]);
        assert [s[0]] + s[1..] == s;
      }
    }
  }

  lemma JoinPrefix(parts: seq<string>, prefix: string, sep: string)
    requires |parts| >= 1
    ensures Join([prefix + parts[0]] + parts[1..], sep) == prefix + Join(parts, sep)
  {
    var more := [prefix + parts[0]] + parts[1..];
    assert more[1..] == parts[1..];
    if |parts| > 1 {
      assert prefix + parts[0] + sep + Join(parts[1..], sep) == prefix + (parts[0] + sep + Join(parts[1..], sep));
    }
  }

  // ----- extractCookieValue -----

  datatype Extracted = NoCookie | Decoded(value: string) | DecodeThrew

  predicate StartsWith(s: string, prefix: string) {
    prefix <= s
  }

  /** `cookies.find(part => part.startsWith(...))` on the trimmed parts. */
  function FindPart(parts: seq<string>, prefix: string): Option<string> {
    if parts == [] then None
    else if StartsWith(Trim(parts[0]), prefix) then Some(Trim(parts[0]))
    else FindPart(parts[1..], prefix)
  }

  function Decode(value: string, decode: string -> Option<string>): Extracted {
    match decode(value)
    case None => DecodeThrew
    case Some(v) => Decoded(v)
  }

  function ExtractCookieValue(header: Option<string>, name: string, decode: string -> Option<string>): Extracted {
    if header.None? || header.value == "" then NoCookie
    else
      match FindPart(Split(header.value, ';'), name + "=")
      case None => NoCookie
      case Some(part) => Decode(Join(Split(part, '=')[1..], "="), decode)
  }

  // ----- headers as browsers send them, RFC 6265 section 4.2.1 -----

  datatype Pair = Pair(name: string, value: string)

  /** A cookie-name is a token; a cookie-value has no control, white space or semicolon, but may well
      contain '='. */
  predicate WellFormed(p: Pair) {
    && p.name != ""
    && (forall c :: c in p.name ==> !IsSpace(c) && c != ';' && c != '=')
    && (forall c :: c in p.value ==> !IsSpace(c) && c != ';')
  }

  function CookiePair(p: Pair): string {
    p.name + "=" + p.value
  }

  /** `cookie-string = cookie-pair *( ";" SP cookie-pair )` */
  function Serialize(pairs: seq<Pair>): string {
    if pairs == [] then ""
    else if |pairs| == 1 then CookiePair(pairs[0])
    else CookiePair(pairs[0]) + "; " + Serialize(pairs[1..])
  }

  function FirstValue(pairs: seq<Pair>, name: string): Option<string> {
    if pairs == [] then None
    else if pairs[0].name == name then Some(pairs[0].value)
    else FirstValue(pairs[1..], name)
  }

  lemma PairText(p: Pair)
    requires WellFormed(p)
    ensures ';' !in CookiePair(p) && Trimmed(CookiePair(p)) && CookiePair(p) != "" && !IsSpace(CookiePair(p)[0])
  {
    var t := CookiePair(p);
    assert t[0] == p.name[0] && p.name[0] in p.name;
    forall c | c in t
      ensures c != ';' && !IsSpace(c)
    {
    }
    assert t[|t| - 1] in t;
  }

  lemma TrimSpace(t: string)
    requires t != "" && Trimmed(t)
    ensures Trim(" " + t) == t && Trim(t) == t
  {
    assert (" " + t)[1..] == t;
    TrimKeeps(t);
  }

  /** The part of the pair starts with the prefix exactly if the names agree. */
  lemma PrefixIsName(p: Pair, name: string)
    requires WellFormed(p) && '=' !in name
    ensures StartsWith(CookiePair(p), name + "=") <==> p.name == name
  {
    var t, prefix := CookiePair(p), name + "=";
    forall i | 0 <= i < |p.name|
      ensures t[i] != '='
    {
      assert p.name[i] in p.name;
    }
    forall i | 0 <= i < |name|
      ensures prefix[i] != '='
    {
      assert name[i] in name;
    }
    assert t[|p.name|] == '=' && prefix[|name|] == '=';
    if prefix <= t {
      assert |p.name| == |name|;
      assert t[..|name|] == name && t[..|p.name|] == p.name;
    }
  }

  /** What follows the first '='. */
  lemma ValueOf(p: Pair)
    requires WellFormed(p)
    ensures Join(Split(CookiePair(p), '=')[1..], "=") == p.value
  {
    assert CookiePair(p) == p.name + ['='] + p.value;
    SplitFirst(p.name, p.value, '=');
    assert ([p.name] + Split(p.value, '='))[1..] == Split(p.value, '=');
    JoinSplit(p.value, '=');
  }

  /** Searching the parts finds the value `v`, if any. */
  predicate Finds(parts: seq<string>, name: string, v: Option<string>) {
    match FindPart(parts, name + "=")
    case None => v.None?
    case Some(part) => v == Some(Join(Split(part, '=')[1..], "="))
  }

  /** One part, which may stand behind the space that follows a semicolon. */
  lemma FindsStep(p: Pair, lead: string, more: seq<string>, name: string, v: Option<string>)
    requires WellFormed(p) && '=' !in name && (lead == "" || lead == " ")
    requires p.name != name ==> Finds(more, name, v)
    ensures Finds([lead + CookiePair(p)] + more, name, if p.name == name then Some(p.value) else v)
  {
    var t := CookiePair(p);
    var parts := [lead + t] + more;
    PairText(p);
    TrimSpace(t);
    assert Trim(parts[0]) == t by {
      assert "" + t == t;
    }
    PrefixIsName(p, name);
    ValueOf(p);
    assert parts[1..] == more;
  }

  /** The parts of a serialised list: the first pair, then those of the rest. */
  function RestParts(pairs: seq<Pair>): seq<string>
    requires pairs != []
  {
    if |pairs| == 1 then [] else Split(" " + Serialize(pairs[1..]), ';')
  }

  /** Regrouping around the semicolon. */
  lemma Regroup(lead: string, t: string, rest: string)
    ensures lead + (t + "; " + rest) == (lead + t) + [';'] + (" " + rest)
  {
    assert "; " == [';'] + " ";
  }

  lemma PartsOf(pairs: seq<Pair>, lead: string)
    requires pairs != [] && WellFormed(pairs[0]) && (lead == "" || lead == " ")
    ensures Split(lead + Serialize(pairs), ';') == [lead + CookiePair(pairs[0])] + RestParts(pairs)
  {
    var t := CookiePair(pairs[0]);
    PairText(pairs[0]);
    assert ';' !in lead + t;
    if |pairs| == 1 {
      SplitNone(lead + t, ';');
    } else {
      var rest := Serialize(pairs[1..]);
      Regroup(lead, t, rest);
      SplitFirst(lead + t, " " + rest, ';');
    }
  }

  /** Splitting and trimming a serialised list finds the first pair with the name. */
  lemma {:induction false} FindsFirst(pairs: seq<Pair>, name: string, lead: string)
    requires pairs != [] && '=' !in name && (lead == "" || lead == " ")
    requires forall p :: p in pairs ==> WellFormed(p)
    ensures Finds(Split(lead + Serialize(pairs), ';'), name, FirstValue(pairs, name))
  {
    PartsOf(pairs, lead);
    if |pairs| > 1 {
      FindsFirst(pairs[1..], name, " ");
    }
    FindsStep(pairs[0], lead, RestParts(pairs), name, FirstValue(pairs[1..], name));
  }

  /** The first pair with the name, by position. */
  lemma {:induction false} FirstValueIs(pairs: seq<Pair>, name: string, k: nat)
    requires k < |pairs| && pairs[k].name == name && forall i :: 0 <= i < k ==> pairs[i].name != name
    ensures FirstValue(pairs, name) == Some(pairs[k].value)
  {
    if k > 0 {
      FirstValueIs(pairs[1..], name, k - 1);
    }
  }

  lemma {:induction false} NoValue(pairs: seq<Pair>, name: string)
    requires forall i :: 0 <= i < |pairs| ==> pairs[i].name != name
    ensures FirstValue(pairs, name) == None
  {
    if pairs != [] {
      NoValue(pairs[1..], name);
    }
  }

  // ----- any header -----

  lemma {:induction false} FindPartIs(parts: seq<string>, prefix: string, k: nat)
    requires k < |parts| && prefix <= Trim(parts[k]) && forall i :: 0 <= i < k ==> !(prefix <= Trim(parts[i]))
    ensures FindPart(parts, prefix) == Some(Trim(parts[k]))
  {
    if k > 0 {
      FindPartIs(parts[1..], prefix, k - 1);
    }
  }

  lemma {:induction false} NoPart(parts: seq<string>, prefix: string)
    requires forall i :: 0 <= i < |parts| ==> !(prefix <= Trim(parts[i]))
    ensures FindPart(parts, prefix) == None
  {
    if parts != [] {
      NoPart(parts[1..], prefix);
    }
  }

  /** What stands behind the name and the first '=', whatever else the part holds. */
  lemma AfterName(part: string, name: string)
    requires '=' !in name && name + "=" <= part
    ensures Join(Split(part, '=')[1..], "=") == part[|name| + 1..]
  {
    var rest := part[|name| + 1..];
    assert part == name + ['='] + rest;
    SplitFirst(name, rest, '=');
    assert ([name] + Split(rest, '='))[1..] == Split(rest, '=');
    JoinSplit(rest, '=');
  }

  /** Over every header, well formed or not: the value is what follows the name and its '=' in the first
      part between semicolons that starts with them, trimmed and decoded. */
  lemma ExtractedFrom(header: string, name: string, decode: string -> Option<string>, k: nat)
    requires header != "" && '=' !in name && k < |Split(header, ';')|
    requires name + "=" <= Trim(Split(header, ';')[k])
    requires forall i :: 0 <= i < k ==> !(name + "=" <= Trim(Split(header, ';')[i]))
    ensures
      var v := Trim(Split(header, ';')[k])[|name| + 1..];
      ExtractCookieValue(Some(header), name, decode)
      == if decode(v).Some? then Decoded(decode(v).value) else DecodeThrew
  {
    FindPartIs(Split(header, ';'), name + "=", k);
    AfterName(Trim(Split(header, ';')[k]), name);
  }

  /** And nothing, if there is no header or no such part. */
  lemma NothingExtracted(header: Option<string>, name: string, decode: string -> Option<string>)
    requires header.Some? && header.value != "" ==>
               forall i :: 0 <= i < |Split(header.value, ';')| ==> !(name + "=" <= Trim(Split(header.value, ';')[i]))
    ensures ExtractCookieValue(header, name, decode) == NoCookie
  {
    if header.Some? && header.value != "" {
      NoPart(Split(header.value, ';'), name + "=");
    }
  }

  /** The parts of a split hold no separator, so that joining them back determines them. */
  lemma {:induction false} SplitParts(s: string, sep: char)
    ensures forall i :: 0 <= i < |Split(s, sep)| ==> sep !in Split(s, sep)[i]
  {
    if s != "" {
      SplitParts(s[1..], sep);
    }
  }

  /** Cookie round trip: from any list of well-formed pairs, extraction returns the decoded value of
      the first pair with the name, and nothing if there is none. */
  lemma CookieRoundTrip(pairs: seq<Pair>, name: string, decode: string -> Option<string>)
    requires '=' !in name && forall p :: p in pairs ==> WellFormed(p)
    ensures
      ExtractCookieValue(Some(Serialize(pairs)), name, decode)
      == match FirstValue(pairs, name)
         case None => NoCookie
         case Some(v) => if decode(v).Some? then Decoded(decode(v).value) else DecodeThrew
  {
    if pairs != [] {
      PairText(pairs[0]);
      FindsFirst(pairs, name, "");
      assert "" + Serialize(pairs) == Serialize(pairs);
      assert Serialize(pairs) != "";
    }
  }
}
