/** `replace_parameters` (lambda_handler.py:211-252): the eight placeholder
    values, and their substitution into the maintenance page template. */
module Template {
  import opened Results
  import opened Text
  import opened Request

  /** The placeholder for `key`, `'{{' + key + '}}'`. */
  function Token(key: string): (t: string)
    ensures |t| == |key| + 4
    ensures t[0] == '{' && t[1] == '{'
  {
    "{{" + key + "}}"
  }

  /** The placeholder names, in the order the replacements are applied. */
  const TemplateKeys: seq<string> :=
    ["REQUEST_ID", "TIMESTAMP", "PATH", "METHOD", "SOURCE_IP", "USER_AGENT", "HOST", "FUNCTION_NAME"]

  /** One entry of the `replacements` dictionary: a placeholder name and its value. */
  type Replacement = (string, string)

  function Keys(pairs: seq<Replacement>): (ks: seq<string>)
    ensures |ks| == |pairs|
    ensures forall j :: 0 <= j < |pairs| ==> ks[j] == pairs[j].0
  {
    seq(|pairs|, j requires 0 <= j < |pairs| => pairs[j].0)
  }

  /** The value of the first entry named `key`, if any. */
  function Find(pairs: seq<Replacement>, key: string): Option<string> {
    if pairs == [] then None
    else if pairs[0].0 == key then Some(pairs[0].1)
    else Find(pairs[1..], key)
  }

  /** `d` has no entry `key`, or that entry is a dictionary (so `.get` works on it). */
  predicate AbsentOrDict(d: map<string, Value>, key: string) {
    key !in d || d[key].Dict?
  }

  /** Every nested object the placeholders are looked up in can be read:
      `headers`, `requestContext` and `requestContext.identity` are each
      missing or a dictionary. */
  predicate Readable(event: Event) {
    AbsentOrDict(event, "headers") &&
    AbsentOrDict(event, "requestContext") &&
    ("requestContext" in event ==> AbsentOrDict(event["requestContext"].entries, "identity"))
  }

  /** The source IP, `requestContext.identity.sourceIp`, or "unknown" when any
      level is missing. */
  function SourceIp(event: Event): string
    requires Readable(event)
  {
    if "requestContext" in event
       && "identity" in event["requestContext"].entries
       && "sourceIp" in event["requestContext"].entries["identity"].entries
    then PyStr(event["requestContext"].entries["identity"].entries["sourceIp"])
    else "unknown"
  }

  /** Header `name`, looked up with exactly that key, or "unknown". */
  function Header(event: Event, name: string): string
    requires Readable(event)
  {
    if "headers" in event && name in event["headers"].entries
    then PyStr(event["headers"].entries[name])
    else "unknown"
  }

  /** `Find` gives the value of the first entry with the name. */
  lemma {:induction false} FindFirst(pairs: seq<Replacement>, j: nat)
    requires j < |pairs|
    requires forall i :: 0 <= i < j ==> pairs[i].0 != pairs[j].0
    ensures Find(pairs, pairs[j].0) == Some(pairs[j].1)
    decreases j
  {
    if j > 0 {
      FindFirst(pairs[1..], j - 1);
    }
  }

  /** The eight entries of the `replacements` dictionary, in its order. */
  function EightPairs(requestId: string, timestamp: string, path: string, httpMethod: string,
                      sourceIp: string, userAgent: string, host: string, functionName: string)
    : (pairs: seq<Replacement>)
    ensures Keys(pairs) == TemplateKeys
    ensures Find(pairs, "REQUEST_ID") == Some(requestId)
    ensures Find(pairs, "TIMESTAMP") == Some(timestamp)
    ensures Find(pairs, "PATH") == Some(path)
    ensures Find(pairs, "METHOD") == Some(httpMethod)
    ensures Find(pairs, "SOURCE_IP") == Some(sourceIp)
    ensures Find(pairs, "USER_AGENT") == Some(userAgent)
    ensures Find(pairs, "HOST") == Some(host)
    ensures Find(pairs, "FUNCTION_NAME") == Some(functionName)
  {
    var pairs := [("REQUEST_ID", requestId), ("TIMESTAMP", timestamp), ("PATH", path), ("METHOD", httpMethod),
                  ("SOURCE_IP", sourceIp), ("USER_AGENT", userAgent), ("HOST", host), ("FUNCTION_NAME", functionName)];
    FindFirst(pairs, 2);
    FindFirst(pairs, 3);
    FindFirst(pairs, 4);
    FindFirst(pairs, 5);
    FindFirst(pairs, 6);
    FindFirst(pairs, 7);
    pairs
  }

  /** The `replacements` dictionary (lambda_handler.py:236-245). Building it
      fails with Python's `AttributeError` when `.get` is applied to a nested
      value that is not a dictionary; the lookups run in the dictionary's own
      order, so the first such value determines the message. */
  function Replacements(event: Event, context: Context, timestamp: string): (r: Result<seq<Replacement>, string>)
    ensures r.Ok? <==> Readable(event)
    ensures r.Ok? ==> Keys(r.value) == TemplateKeys
    ensures r.Ok? ==> Find(r.value, "REQUEST_ID") == Some(context.requestId)
    ensures r.Ok? ==> Find(r.value, "TIMESTAMP") == Some(timestamp)
    ensures r.Ok? ==> Find(r.value, "PATH") == Some(if "path" in event then PyStr(event["path"]) else "/")
    ensures r.Ok? ==> Find(r.value, "METHOD") == Some(if "httpMethod" in event then PyStr(event["httpMethod"]) else "GET")
    ensures r.Ok? ==> Find(r.value, "SOURCE_IP") == Some(SourceIp(event))
    ensures r.Ok? ==> Find(r.value, "USER_AGENT") == Some(Header(event, "user-agent"))
    ensures r.Ok? ==> Find(r.value, "HOST") == Some(Header(event, "host"))
    ensures r.Ok? ==> Find(r.value, "FUNCTION_NAME") == Some(context.functionName)
  {
    var requestContext := Get(event, "requestContext", EmptyDict);
    if !requestContext.Dict? then Err(NoAttribute(requestContext, "get"))
    else
      var identity := Get(requestContext.entries, "identity", EmptyDict);
      if !identity.Dict? then Err(NoAttribute(identity, "get"))
      else
        var headers := Get(event, "headers", EmptyDict);
        if !headers.Dict? then Err(NoAttribute(headers, "get"))
        else
          var pairs := EightPairs(
            context.requestId,
            timestamp,
            PyStr(Get(event, "path", Str("/"))),
            PyStr(Get(event, "httpMethod", Str("GET"))),
            PyStr(Get(identity.entries, "sourceIp", Str("unknown"))),
            PyStr(Get(headers.entries, "user-agent", Str("unknown"))),
            PyStr(Get(headers.entries, "host", Str("unknown"))),
            context.functionName);
          Ok(pairs)
  }

  /** The loop of lambda_handler.py:248-250 as a function: each entry in turn
      rewrites the whole text with `str.replace`. */
  function Substitute(html: string, pairs: seq<Replacement>): string
    decreases |pairs|
  {
    if pairs == [] then html
    else Substitute(ReplaceAll(html, Token(pairs[0].0), pairs[0].1), pairs[1..])
  }

  /** What `replace_parameters` returns or raises. */
  function Render(html: string, event: Event, context: Context, timestamp: string): (r: Result<string, string>)
    ensures r.Ok? <==> Readable(event)
  {
    match Replacements(event, context, timestamp)
    case Ok(pairs) => Ok(Substitute(html, pairs))
    case Err(e) => Err(e)
  }

  /** `replace_parameters`: build the replacements, then rewrite the text
      once per entry, in order. `timestamp` is the UTC clock reading in ISO
      8601 form. */
  method ReplaceParameters(html: string, event: Event, context: Context, timestamp: string)
    returns (r: Result<string, string>)
    ensures r == Render(html, event, context, timestamp)
  {
    var replacements := Replacements(event, context, timestamp);
    if replacements.Err? {
      return Err(replacements.error);
    }
    var pairs := replacements.value;
    var out := html;
    var i := 0;
    while i < |pairs|
      invariant 0 <= i <= |pairs|
      invariant Substitute(out, pairs[i..]) == Substitute(html, pairs)
    {
      assert pairs[i..][1..] == pairs[i + 1..];
      out := ReplaceAll(out, Token(pairs[i].0), pairs[i].1);
      i := i + 1;
    }
    return Ok(out);
  }

  // ----- templates as text and placeholders -----

  /** A template cut into literal text and placeholders. */
  datatype Piece = Lit(text: string) | Hole(key: string)

  function PieceText(p: Piece): string {
    match p
    case Lit(text) => text
    case Hole(key) => Token(key)
  }

  function Flatten(ps: seq<Piece>): string {
    if ps == [] then "" else PieceText(ps[0]) + Flatten(ps[1..])
  }

  /** Literal text holds no `{`; a placeholder name is non-empty and has no braces. */
  predicate PieceOk(p: Piece) {
    match p
    case Lit(text) => NoOpenBrace(text)
    case Hole(key) => |key| > 0 && BraceFree(key)
  }

  predicate PiecesOk(ps: seq<Piece>) {
    forall i :: 0 <= i < |ps| ==> PieceOk(ps[i])
  }

  /** Names without braces, values without `{`. */
  predicate PairsOk(pairs: seq<Replacement>) {
    forall j :: 0 <= j < |pairs| ==> BraceFree(pairs[j].0) && NoOpenBrace(pairs[j].1)
  }

  function FillPiece(p: Piece, key: string, value: string): Piece {
    if p == Hole(key) then Lit(value) else p
  }

  /** The placeholders named `key` turned into the text `value`. */
  function Fill(ps: seq<Piece>, key: string, value: string): (r: seq<Piece>)
    ensures |r| == |ps|
    ensures forall i :: 0 <= i < |ps| ==> r[i] == FillPiece(ps[i], key, value)
  {
    if ps == [] then [] else [FillPiece(ps[0], key, value)] + Fill(ps[1..], key, value)
  }

  /** A placeholder whose name has an entry becomes that entry's value; every
      other piece stays. */
  function InstantiatePiece(p: Piece, pairs: seq<Replacement>): Piece {
    match p
    case Lit(_) => p
    case Hole(key) => if Find(pairs, key).Some? then Lit(Find(pairs, key).value) else p
  }

  /** Each placeholder replaced, independently of the others, by the value
      its name has in `pairs`. */
  function Instantiate(ps: seq<Piece>, pairs: seq<Replacement>): (r: seq<Piece>)
    ensures |r| == |ps|
    ensures forall i :: 0 <= i < |ps| ==> r[i] == InstantiatePiece(ps[i], pairs)
  {
    if ps == [] then [] else [InstantiatePiece(ps[0], pairs)] + Instantiate(ps[1..], pairs)
  }

  // ----- lemmas -----

  /** A different placeholder at the front is copied unchanged. */
  lemma ReplaceOtherHole(k: string, key: string, b: string, value: string)
    requires |k| > 0 && BraceFree(k) && BraceFree(key) && k != key
    ensures ReplaceAll(Token(k) + b, Token(key), value) == Token(k) + ReplaceAll(b, Token(key), value)
  {
    var s, t := Token(k) + b, Token(key);
    forall i | 0 <= i < |Token(k)|
      ensures !StartsWith(s[i..], t)
    {
      if i == 0 {
        if |t| <= |s| {
          assert s[..|t|] != t by {
            if |key| < |k| {
              assert s[2 + |key|] == k[|key|] != '}' == t[2 + |key|];
            } else if |key| > |k| {
              assert s[2 + |k|] == '}' != key[|k|] == t[2 + |k|];
            } else {
              assert k == s[2..2 + |k|];
              assert key == t[2..2 + |k|];
            }
          }
        }
        assert s[0..] == s;
      } else if i == 1 {
        assert s[i..][1] == k[0] != '{';
      } else {
        assert s[i..][0] == s[i] != '{';
      }
    }
    ReplaceAllSkip(Token(k), b, t, value);
  }

  /** One `str.replace` of a placeholder is exactly `Fill` on the pieces. */
  lemma {:induction false} ReplaceAllFlatten(ps: seq<Piece>, key: string, value: string)
    requires PiecesOk(ps) && BraceFree(key) && NoOpenBrace(value)
    ensures ReplaceAll(Flatten(ps), Token(key), value) == Flatten(Fill(ps, key, value))
  {
    if ps != [] {
      var rest := Flatten(ps[1..]);
      ReplaceAllFlatten(ps[1..], key, value);
      assert Fill(ps, key, value)[1..] == Fill(ps[1..], key, value);
      match ps[0]
      case Lit(text) =>
        ReplaceAllSkipText(text, rest, Token(key), value);
      case Hole(k) =>
        if k == key {
          ReplaceAllFront(rest, Token(key), value);
        } else {
          ReplaceOtherHole(k, key, rest, value);
        }
    }
  }

  lemma FindFront(key: string, value: string, rest: seq<Replacement>, k: string)
    ensures Find([(key, value)] + rest, k) == if k == key then Some(value) else Find(rest, k)
  {
    assert ([(key, value)] + rest)[1..] == rest;
  }

  /** The loop computes `Instantiate`: on a template whose literal text has no
      `{`, with names free of braces and values free of `{`, applying the
      replacements one after another gives the same page as replacing every
      placeholder by its own value at once, so every occurrence — not just the
      first — is replaced, and no replacement creates a new placeholder. */
  lemma {:induction false} SubstituteFlatten(ps: seq<Piece>, pairs: seq<Replacement>)
    requires PiecesOk(ps) && PairsOk(pairs)
    ensures Substitute(Flatten(ps), pairs) == Flatten(Instantiate(ps, pairs))
    decreases |pairs|
  {
    if pairs == [] {
      assert Instantiate(ps, pairs) == ps;
    } else {
      var (key, value) := pairs[0];
      ReplaceAllFlatten(ps, key, value);
      var filled := Fill(ps, key, value);
      SubstituteFlatten(filled, pairs[1..]);
      assert [(key, value)] + pairs[1..] == pairs;
      forall i | 0 <= i < |ps|
        ensures InstantiatePiece(filled[i], pairs[1..]) == InstantiatePiece(ps[i], pairs)
      {
        if ps[i].Hole? {
          FindFront(key, value, pairs[1..], ps[i].key);
        }
      }
      assert Instantiate(filled, pairs[1..]) == Instantiate(ps, pairs);
    }
  }

  /** Where no placeholder of `pairs` occurs, the substitution changes nothing. */
  lemma {:induction false} SubstituteAbsent(html: string, pairs: seq<Replacement>)
    requires forall j :: 0 <= j < |pairs| ==> !Contains(html, Token(pairs[j].0))
    ensures Substitute(html, pairs) == html
    decreases |pairs|
  {
    if pairs != [] {
      ReplaceAllAbsent(html, Token(pairs[0].0), pairs[0].1);
      SubstituteAbsent(html, pairs[1..]);
    }
  }

  lemma {:induction false} FindKey(pairs: seq<Replacement>, k: string)
    requires k in Keys(pairs)
    ensures Find(pairs, k).Some?
    decreases |pairs|
  {
    if pairs[0].0 != k {
      assert Keys(pairs) == [pairs[0].0] + Keys(pairs[1..]);
      FindKey(pairs[1..], k);
    }
  }

  lemma {:induction false} FindAbsent(pairs: seq<Replacement>, k: string)
    requires k !in Keys(pairs)
    ensures Find(pairs, k) == None
    decreases |pairs|
  {
    if pairs != [] {
      assert Keys(pairs) == [pairs[0].0] + Keys(pairs[1..]);
      FindAbsent(pairs[1..], k);
    }
  }

  lemma {:induction false} FindValue(pairs: seq<Replacement>, k: string)
    requires Find(pairs, k).Some?
    ensures exists j :: 0 <= j < |pairs| && pairs[j] == (k, Find(pairs, k).value)
    decreases |pairs|
  {
    if pairs[0].0 != k {
      FindValue(pairs[1..], k);
      var j :| 0 <= j < |pairs[1..]| && pairs[1..][j] == (k, Find(pairs, k).value);
      assert pairs[j + 1] == pairs[1..][j];
    }
  }

  lemma {:induction false} FlattenNoOpenBrace(ps: seq<Piece>)
    requires forall i :: 0 <= i < |ps| ==> ps[i].Lit? && NoOpenBrace(ps[i].text)
    ensures NoOpenBrace(Flatten(ps))
  {
    if ps != [] {
      FlattenNoOpenBrace(ps[1..]);
      var a, b := PieceText(ps[0]), Flatten(ps[1..]);
      assert forall i :: 0 <= i < |a + b| ==> (a + b)[i] == if i < |a| then a[i] else b[i - |a|];
    }
  }

  lemma {:induction false} FlattenContainsPiece(ps: seq<Piece>, i: nat)
    requires i < |ps|
    ensures Contains(Flatten(ps), PieceText(ps[i]))
  {
    if i == 0 {
      ContainsMiddle("", PieceText(ps[0]), Flatten(ps[1..]));
      assert "" + PieceText(ps[0]) + Flatten(ps[1..]) == Flatten(ps);
    } else {
      FlattenContainsPiece(ps[1..], i - 1);
      ContainsInSuffix(PieceText(ps[0]), Flatten(ps[1..]), PieceText(ps[i]));
    }
  }

  lemma KeysArePlain()
    ensures forall j :: 0 <= j < |TemplateKeys| ==> |TemplateKeys[j]| > 0 && BraceFree(TemplateKeys[j])
  {
  }

  /** The substituted values have no `{`. */
  predicate ValuesOk(pairs: seq<Replacement>) {
    forall j :: 0 <= j < |pairs| ==> NoOpenBrace(pairs[j].1)
  }

  lemma EightValuesOk(requestId: string, timestamp: string, path: string, httpMethod: string,
                      sourceIp: string, userAgent: string, host: string, functionName: string)
    requires '{' !in requestId && '{' !in timestamp && '{' !in path && '{' !in httpMethod
    requires '{' !in sourceIp && '{' !in userAgent && '{' !in host && '{' !in functionName
    ensures ValuesOk(EightPairs(requestId, timestamp, path, httpMethod, sourceIp, userAgent, host, functionName))
  {
    NoOpenBraceByMembership(requestId);
    NoOpenBraceByMembership(timestamp);
    NoOpenBraceByMembership(path);
    NoOpenBraceByMembership(httpMethod);
    NoOpenBraceByMembership(sourceIp);
    NoOpenBraceByMembership(userAgent);
    NoOpenBraceByMembership(host);
    NoOpenBraceByMembership(functionName);
  }

  /** For an event that can be read, a template made of literal text without
      `{` and placeholders with non-empty brace-free names, and values without
      `{`, `replace_parameters` gives the template with every
      placeholder of the eight names replaced by its value and every other
      placeholder left as it is. */
  lemma RenderPieces(ps: seq<Piece>, event: Event, context: Context, timestamp: string)
    requires PiecesOk(ps) && Readable(event)
    requires ValuesOk(Replacements(event, context, timestamp).value)
    ensures Render(Flatten(ps), event, context, timestamp)
         == Ok(Flatten(Instantiate(ps, Replacements(event, context, timestamp).value)))
  {
    var pairs := Replacements(event, context, timestamp).value;
    KeysArePlain();
    assert forall j :: 0 <= j < |pairs| ==> pairs[j].0 == Keys(pairs)[j] == TemplateKeys[j];
    SubstituteFlatten(ps, pairs);
  }

  /** Under the same conditions, when every placeholder in the template is one
      of the eight names: the page has no `{` left, so no placeholder
      survives, and the value of each placeholder that was there appears in it. */
  lemma RenderRemovesEveryToken(ps: seq<Piece>, event: Event, context: Context, timestamp: string)
    requires PiecesOk(ps) && Readable(event)
    requires ValuesOk(Replacements(event, context, timestamp).value)
    requires forall i :: 0 <= i < |ps| && ps[i].Hole? ==> ps[i].key in TemplateKeys
    ensures Render(Flatten(ps), event, context, timestamp).Ok?
    ensures var page := Render(Flatten(ps), event, context, timestamp).value;
      NoOpenBrace(page) && forall key :: !Contains(page, Token(key))
    ensures var page := Render(Flatten(ps), event, context, timestamp).value;
      var pairs := Replacements(event, context, timestamp).value;
      forall i :: 0 <= i < |ps| && ps[i].Hole? ==> Contains(page, Find(pairs, ps[i].key).value)
  {
    var pairs := Replacements(event, context, timestamp).value;
    RenderPieces(ps, event, context, timestamp);
    InstantiateAllKnown(ps, pairs);
  }

  /** When every placeholder has an entry and no value has `{`, the filled-in
      template has no placeholder left and contains every value used. */
  lemma InstantiateAllKnown(ps: seq<Piece>, pairs: seq<Replacement>)
    requires PiecesOk(ps) && ValuesOk(pairs)
    requires forall i :: 0 <= i < |ps| && ps[i].Hole? ==> ps[i].key in Keys(pairs)
    ensures var page := Flatten(Instantiate(ps, pairs));
      NoOpenBrace(page) && forall key :: !Contains(page, Token(key))
    ensures var page := Flatten(Instantiate(ps, pairs));
      forall i :: 0 <= i < |ps| && ps[i].Hole? ==>
        Find(pairs, ps[i].key).Some? && Contains(page, Find(pairs, ps[i].key).value)
  {
    var filled := Instantiate(ps, pairs);
    forall i | 0 <= i < |ps| && ps[i].Hole?
      ensures Find(pairs, ps[i].key).Some?
    {
      FindKey(pairs, ps[i].key);
    }
    forall i | 0 <= i < |ps|
      ensures filled[i].Lit? && NoOpenBrace(filled[i].text)
    {
      if ps[i].Hole? {
        FindValue(pairs, ps[i].key);
      }
    }
    FlattenNoOpenBrace(filled);
    var page := Flatten(filled);
    forall key
      ensures !Contains(page, Token(key))
    {
      NoOpenBraceNoMatch(page, Token(key));
    }
    forall i | 0 <= i < |ps| && ps[i].Hole?
      ensures Contains(page, Find(pairs, ps[i].key).value)
    {
      FlattenContainsPiece(filled, i);
    }
  }

  /** No occurrence of a placeholder starts strictly inside another
      placeholder: after the first position, `{{` never appears again in
      `{{key}}`. */
  lemma NoTokenInsideToken(s: string, key: string, k: string)
    requires BraceFree(key) && StartsWith(s, Token(key))
    ensures forall i :: 0 < i < |Token(key)| ==> !StartsWith(s[i..], Token(k))
  {
    var p, t := Token(key), Token(k);
    assert s[..|p|] == p;
    forall i | 0 < i < |p|
      ensures !StartsWith(s[i..], t)
    {
      StartsWithHead(s[i..], t);
      if i == 1 {
        assert s[i..][1] == p[2] != '{';
      } else {
        assert s[i..][0] == p[i] != '{';
      }
    }
  }

  /** One `str.replace` of `{{key}}` keeps every occurrence of a different
      placeholder `{{k}}`, whatever else the text holds. */
  lemma {:induction false} ReplaceKeepsOther(s: string, k: string, key: string, value: string)
    requires |k| > 0 && BraceFree(k) && BraceFree(key) && k != key
    requires Contains(s, Token(k))
    ensures Contains(ReplaceAll(s, Token(key), value), Token(k))
    decreases |s|
  {
    var t, p := Token(k), Token(key);
    if StartsWith(s, t) {
      var b := s[|t|..];
      assert s == t + b;
      ReplaceOtherHole(k, key, b, value);
      assert (t + ReplaceAll(b, p, value))[..|t|] == t;
    } else if StartsWith(s, p) {
      NoTokenInsideToken(s, key, k);
      assert s[0..] == s;
      ContainsSkip(s, |p|, t);
      ReplaceKeepsOther(s[|p|..], k, key, value);
      ContainsInSuffix(value, ReplaceAll(s[|p|..], p, value), t);
    } else {
      ReplaceKeepsOther(s[1..], k, key, value);
      ContainsInSuffix([s[0]], ReplaceAll(s[1..], p, value), t);
    }
  }

  /** The whole loop keeps a placeholder that no entry names. */
  lemma {:induction false} SubstituteKeepsOther(html: string, pairs: seq<Replacement>, k: string)
    requires |k| > 0 && BraceFree(k)
    requires forall j :: 0 <= j < |pairs| ==> BraceFree(pairs[j].0) && pairs[j].0 != k
    requires Contains(html, Token(k))
    ensures Contains(Substitute(html, pairs), Token(k))
    decreases |pairs|
  {
    if pairs != [] {
      ReplaceKeepsOther(html, k, pairs[0].0, pairs[0].1);
      SubstituteKeepsOther(ReplaceAll(html, Token(pairs[0].0), pairs[0].1), pairs[1..], k);
    }
  }

  /** A placeholder whose name is non-empty, brace-free and not one of the
      eight is left in the page, for any template and any values. */
  lemma RenderKeepsUnknownToken(html: string, k: string, event: Event, context: Context, timestamp: string)
    requires Readable(event)
    requires |k| > 0 && BraceFree(k) && k !in TemplateKeys
    requires Contains(html, Token(k))
    ensures Render(html, event, context, timestamp).Ok?
    ensures Contains(Render(html, event, context, timestamp).value, Token(k))
  {
    var pairs := Replacements(event, context, timestamp).value;
    KeysArePlain();
    assert forall j :: 0 <= j < |pairs| ==> pairs[j].0 == Keys(pairs)[j] == TemplateKeys[j];
    SubstituteKeepsOther(html, pairs, k);
  }

  /** For an event that can be read (`headers`, `requestContext` and
      `identity` each absent or a dictionary), a template in which none of
      the eight placeholders occurs comes back unchanged. */
  lemma RenderWithoutTokens(html: string, event: Event, context: Context, timestamp: string)
    requires Readable(event)
    requires forall key :: key in TemplateKeys ==> !Contains(html, Token(key))
    ensures Render(html, event, context, timestamp) == Ok(html)
  {
    var pairs := Replacements(event, context, timestamp).value;
    assert forall j :: 0 <= j < |pairs| ==> pairs[j].0 == Keys(pairs)[j] == TemplateKeys[j];
    SubstituteAbsent(html, pairs);
  }

  /** Why the conditions on braces are needed: the replacement does not rescan
      its output, so surrounding braces can form a new placeholder.
      `"{{{{PATH}}}}".replace("{{PATH}}", "PATH")` is `"{{PATH}}"`. */
  lemma TokenCanReappear()
    ensures ReplaceAll("{{{{PATH}}}}", Token("PATH"), "PATH") == "{{PATH}}"
    ensures Contains(ReplaceAll("{{{{PATH}}}}", Token("PATH"), "PATH"), Token("PATH"))
  {
    var s := "{{{{PATH}}}}";
    var t := Token("PATH");
    assert t == "{{PATH}}";
    assert s[..8] != t by { assert s[2] != t[2]; }
    assert s[1..][..8] != t by { assert s[1..][2] != t[2]; }
    assert s[2..][..8] == t;
    assert s[1..][1..] == s[2..];
    assert s[2..][8..] == "}}";
    assert ReplaceAll("}}", t, "PATH") == "}}";
    assert ReplaceAll(s[2..], t, "PATH") == "PATH}}";
    assert ReplaceAll(s, t, "PATH") == "{{PATH}}";
    assert "{{PATH}}"[..8] == t;
  }
}
