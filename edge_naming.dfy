/** The names the Lambda@Edge construct derives: the SSM parameter that carries
    the function version's ARN from `us-east-1` back to the stack's own region,
    the resource pattern the ARN reader is allowed to read, and the id of the
    support stack in `us-east-1`. */
module EdgeNaming {
  import opened JsStrings
  import opened Wrappers

  /** The only region Lambda@Edge functions can be created in. */
  const EdgeRegion: JsString := Ascii("us-east-1")

  /** The first segment of every parameter name the construct writes. */
  const ParameterNamePrefix: JsString := Ascii("cdk/EdgeFunctionArn")

  /** The id of a support stack when the caller names none; the stack's
      address is appended. */
  const DefaultEdgeStackIdPrefix: JsString := Ascii("edge-lambda-stack-")

  const Slash: CodeUnit := Unit('/')
  const Underscore: CodeUnit := Unit('_')
  const Star: CodeUnit := Unit('*')
  const Question: CodeUnit := Unit('?')

  /** The code units SSM accepts in a parameter name: the complement of the
      character class `[^\/\w.-]`. Without the `u` flag `\w` is ASCII only:
      letters, digits and underscore. */
  predicate IsParameterNameUnit(u: CodeUnit) {
    || ('A' as int <= u as int <= 'Z' as int)
    || ('a' as int <= u as int <= 'z' as int)
    || ('0' as int <= u as int <= '9' as int)
    || u == Underscore || u == Unit('.') || u == Unit('-') || u == Slash
  }

  predicate AllParameterNameUnits(s: JsString) {
    forall i :: 0 <= i < |s| ==> IsParameterNameUnit(s[i])
  }

  function SanitizeUnit(u: CodeUnit): CodeUnit {
    if IsParameterNameUnit(u) then u else Underscore
  }

  /** The construct path with every code unit SSM refuses replaced by `_`:
      the same length, accepted units kept in place, and nothing but
      accepted units in the result. */
  function Sanitize(path: JsString): (r: JsString)
    ensures |r| == |path|
    ensures forall i :: 0 <= i < |path| ==>
              r[i] == (if IsParameterNameUnit(path[i]) then path[i] else Underscore)
    ensures AllParameterNameUnits(r)
  {
    if path == [] then [] else [SanitizeUnit(path[0])] + Sanitize(path[1..])
  }

  /** Sanitising a sanitised path changes nothing. */
  lemma SanitizeIdempotent(path: JsString)
    ensures Sanitize(Sanitize(path)) == Sanitize(path)
  {
  }

  /** A path is left as it is exactly when it is already a valid name. */
  lemma SanitizeFixesExactlyValidNames(path: JsString)
    ensures Sanitize(path) == path <==> AllParameterNameUnits(path)
  {
    if Sanitize(path) == path {
      assert AllParameterNameUnits(Sanitize(path));
    }
  }

  /** Sanitisation works unit by unit, so it distributes over concatenation. */
  lemma {:induction false} SanitizeConcat(a: JsString, b: JsString)
    ensures Sanitize(a + b) == Sanitize(a) + Sanitize(b)
  {
    var whole, parts := Sanitize(a + b), Sanitize(a) + Sanitize(b);
    forall i | 0 <= i < |a + b| ensures whole[i] == parts[i] {
      if i < |a| {
        assert (a + b)[i] == a[i];
      } else {
        assert (a + b)[i] == b[i - |a|];
      }
    }
  }

  /** A character outside the Basic Multilingual Plane is two code units and
      becomes two underscores: the sanitised path is as long as the path in
      code units, not in characters. */
  lemma SanitizeSupplementaryCharacter(c: char)
    requires c as int >= 0x1_0000
    ensures Sanitize(EncodeUtf16(c)) == [Underscore, Underscore]
  {
    var e := EncodeUtf16(c);
    assert !IsParameterNameUnit(e[0]) && !IsParameterNameUnit(e[1]);
  }

  /** `/cdk/EdgeFunctionArn/<region>/<sanitised path>`: one unit longer
      than the head, the region and the path together, and always under the
      shared prefix (see `ParameterNameLayout` for the whole split). */
  function ParameterName(region: JsString, path: JsString): (name: JsString)
    ensures |name| == |ParameterNameHead| + |region| + 1 + |path|
    ensures name[..|ParameterNameHead|] == ParameterNameHead
  {
    [Slash] + ParameterNamePrefix + [Slash] + region + [Slash] + Sanitize(path)
  }

  /** The fixed head every parameter name starts with: `/cdk/EdgeFunctionArn/`. */
  const ParameterNameHead: JsString := [Slash] + ParameterNamePrefix + [Slash]

  /** The prefix is itself a valid name and holds no IAM wildcard. */
  lemma ParameterNamePrefixIsPlain()
    ensures AllParameterNameUnits(ParameterNamePrefix)
    ensures HasNoWildcard(ParameterNamePrefix)
  {
  }

  /** A parameter name splits back into its fixed head, the region, a slash
      and the sanitised path. */
  lemma ParameterNameLayout(region: JsString, path: JsString)
    ensures var name, h := ParameterName(region, path), |ParameterNameHead|;
      && |name| == h + |region| + 1 + |path|
      && name[..h] == ParameterNameHead
      && name[h..h + |region|] == region
      && name[h + |region|] == Slash
      && name[h + |region| + 1..] == Sanitize(path)
  {
  }

  /** With a region made of valid units, the whole parameter name is valid. */
  lemma ParameterNameIsValid(region: JsString, path: JsString)
    requires AllParameterNameUnits(region)
    ensures AllParameterNameUnits(ParameterName(region, path))
  {
    var name, h := ParameterName(region, path), |ParameterNameHead|;
    ParameterNameLayout(region, path);
    forall i | 0 <= i < |name| ensures IsParameterNameUnit(name[i]) {
      if i < h {
        ParameterNamePrefixIsPlain();
        assert name[i] == ParameterNameHead[i];
      } else if i < h + |region| {
        assert name[i] == name[h..h + |region|][i - h];
      } else if i > h + |region| {
        assert name[i] == name[h + |region| + 1..][i - h - |region| - 1];
      }
    }
  }

  /** Two functions in the same region get the same parameter name exactly
      when their sanitised paths coincide. */
  lemma ParameterNamesCollideIff(region: JsString, path1: JsString, path2: JsString)
    ensures ParameterName(region, path1) == ParameterName(region, path2)
            <==> Sanitize(path1) == Sanitize(path2)
  {
    ParameterNameLayout(region, path1);
    ParameterNameLayout(region, path2);
  }

  /** Paths that differ only in a refused unit share a parameter name. */
  lemma SpaceAndUnderscoreCollide(region: JsString)
    ensures Ascii("App/Edge Fn") != Ascii("App/Edge_Fn")
    ensures ParameterName(region, Ascii("App/Edge Fn")) == ParameterName(region, Ascii("App/Edge_Fn"))
  {
    assert Ascii("App/Edge Fn")[8] != Ascii("App/Edge_Fn")[8];
    ParameterNamesCollideIff(region, Ascii("App/Edge Fn"), Ascii("App/Edge_Fn"));
    assert Sanitize(Ascii("App/Edge Fn")) == Sanitize(Ascii("App/Edge_Fn"));
  }

  /** IAM resource patterns: `*` matches any run of units, `?` any one unit,
      every other unit itself. */
  function GlobMatches(pattern: JsString, s: JsString): bool
    decreases |pattern| + |s|
  {
    if pattern == [] then s == []
    else if pattern[0] == Star then
      GlobMatches(pattern[1..], s) || (s != [] && GlobMatches(pattern, s[1..]))
    else if s == [] then false
    else (pattern[0] == Question || pattern[0] == s[0]) && GlobMatches(pattern[1..], s[1..])
  }

  predicate HasNoWildcard(s: JsString) {
    forall i :: 0 <= i < |s| ==> s[i] != Star && s[i] != Question
  }

  lemma {:induction false} StarMatchesAnything(s: JsString)
    ensures GlobMatches([Star], s)
  {
    if s != [] {
      StarMatchesAnything(s[1..]);
    }
  }

  /** A wildcard-free literal followed by `*` matches exactly the strings that
      start with that literal. */
  lemma {:induction false} PrefixPatternMatchesIff(lit: JsString, s: JsString)
    requires HasNoWildcard(lit)
    ensures GlobMatches(lit + [Star], s) <==> (|lit| <= |s| && s[..|lit|] == lit)
  {
    if lit == [] {
      assert lit + [Star] == [Star];
      StarMatchesAnything(s);
    } else {
      assert (lit + [Star])[1..] == lit[1..] + [Star];
      if s != [] {
        PrefixPatternMatchesIff(lit[1..], s[1..]);
        if |lit| <= |s| && s[..|lit|] == lit {
          assert s[1..][..|lit[1..]|] == lit[1..];
        }
        if |lit| - 1 <= |s| - 1 && s[1..][..|lit| - 1] == lit[1..] && s[0] == lit[0] {
          assert s[..|lit|] == [s[0]] + s[1..][..|lit| - 1];
        }
      }
    }
  }

  /** The resource name the ARN reader's policy grants (the `resourceName` of
      the parameter ARN it is allowed to read). */
  const ReaderGrantResourceName: JsString := ParameterNamePrefix + [Slash, Star]

  /** An SSM parameter's ARN names the parameter without its leading slash. */
  function ParameterArnResourceName(name: JsString): (r: JsString)
    ensures |name| > 0 && name[0] == Slash ==> [Slash] + r == name
    ensures (|name| == 0 || name[0] != Slash) ==> r == name
  {
    if |name| > 0 && name[0] == Slash then name[1..] else name
  }

  /** The reader's grant covers precisely the parameters named under
      `cdk/EdgeFunctionArn/`. */
  lemma ReaderGrantMatchesIff(resourceName: JsString)
    ensures GlobMatches(ReaderGrantResourceName, resourceName)
            <==> (|ParameterNameHead| - 1 <= |resourceName|
                  && resourceName[..|ParameterNameHead| - 1] == ParameterNameHead[1..])
  {
    var lit := ParameterNameHead[1..];
    assert lit == ParameterNamePrefix + [Slash];
    assert ReaderGrantResourceName == lit + [Star];
    ParameterNamePrefixIsPlain();
    PrefixPatternMatchesIff(lit, resourceName);
  }

  /** Every parameter the construct writes is one its reader may read. */
  lemma ReaderGrantCoversParameterName(region: JsString, path: JsString)
    ensures GlobMatches(ReaderGrantResourceName, ParameterArnResourceName(ParameterName(region, path)))
  {
    var name := ParameterName(region, path);
    ParameterNameLayout(region, path);
    var r := ParameterArnResourceName(name);
    assert r == name[1..];
    ReaderGrantMatchesIff(r);
    assert r[..|ParameterNameHead| - 1] == name[..|ParameterNameHead|][1..];
  }

  /** The support stack's id: the caller's `stackId` when given (even an
      empty one, since `??` only replaces `undefined`), otherwise
      `edge-lambda-stack-` followed by the calling stack's address. */
  function EdgeStackId(stackId: Option<JsString>, addr: JsString): (id: JsString)
    ensures stackId.Some? ==> id == stackId.value
    ensures stackId.None? ==> |id| == |DefaultEdgeStackIdPrefix| + |addr|
                              && id[..|DefaultEdgeStackIdPrefix|] == DefaultEdgeStackIdPrefix
                              && id[|DefaultEdgeStackIdPrefix|..] == addr
  {
    match stackId
    case Some(given) => given
    case None => DefaultEdgeStackIdPrefix + addr
  }

  /** Without a `stackId`, stacks at different addresses get different
      support stacks, and the same stack always gets the same one. */
  lemma DefaultEdgeStackIdsDistinguishStacks(addr1: JsString, addr2: JsString)
    ensures EdgeStackId(None, addr1) == EdgeStackId(None, addr2) <==> addr1 == addr2
  {
    if EdgeStackId(None, addr1) == EdgeStackId(None, addr2) {
      assert addr1 == EdgeStackId(None, addr1)[|DefaultEdgeStackIdPrefix|..];
    }
  }
}
