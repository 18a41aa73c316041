/** Redirect URIs of a service, one for each tenant: packages/shared/src/redirect-template.ts, and
    the URI that packages/web-core/src/config.ts builds for a host. */
module RedirectTemplate {
  import opened Timed
  import opened Text

  const PLACEHOLDER := "{tenant}"

  predicate IsAlnum(c: char) {
    'a' <= c <= 'z' || '0' <= c <= '9'
  }

  predicate ValidSlug(s: string) {
    && 1 <= |s| <= 63 && IsAlnum(s[0]) && IsAlnum(s[|s| - 1])
    && forall i :: 0 <= i < |s| ==> IsAlnum(s[i]) || s[i] == '-'
  }

  predicate OccursAt(s: string, part: string, i: nat) {
    i + |part| <= |s| && s[i..i + |part|] == part
  }

  /** The first occurrence at or after `start`, or -1. */
  function IndexFrom(s: string, part: string, start: nat): (i: int)
    ensures i == -1 || (start <= i && OccursAt(s, part, i))
    ensures forall j: nat :: start <= j && (i == -1 || j < i) ==> !OccursAt(s, part, j)
    decreases |s| - start
  {
    if start + |part| > |s| then -1
    else if OccursAt(s, part, start) then start
    else IndexFrom(s, part, start + 1)
  }

  /** Replacement text as String.replace reads it: $$ is a dollar sign, $& the match, $` what
      precedes it and $' what follows it. */
  function Substitution(text: string, before: string, matched: string, after: string): string
    decreases |text|
  {
    if text == "" then ""
    else if |text| >= 2 && text[0] == '$' && text[1] in "$&`'" then
      (match text[1]
       case '$' => "$"
       case '&' => matched
       case '`' => before
       case _ => after) + Substitution(text[2..], before, matched, after)
    else [text[0]] + Substitution(text[1..], before, matched, after)
  }

  function Expand(template: string, slug: string): string {
    var at := IndexFrom(template, PLACEHOLDER, 0);
    if at < 0 then template
    else
      var before, after := template[..at], template[at + |PLACEHOLDER|..];
      before + Substitution(slug, before, PLACEHOLDER, after) + after
  }

  function Match(template: string, uri: string): Option<string> {
    var at := IndexFrom(template, PLACEHOLDER, 0);
    if at < 0 then None
    else
      var prefix, suffix := template[..at], template[at + |PLACEHOLDER|..];
      if |uri| <= |prefix| + |suffix| then None
      else if !(prefix <= uri) || uri[|uri| - |suffix|..] != suffix then None
      else
        var slug := uri[|prefix|..|uri| - |suffix|];
        if ValidSlug(slug) then Some(slug) else None
  }

  predicate Inner(s: string) {
    forall i :: 0 <= i < |s| ==> 'a' <= s[i] <= 'z' || '0' <= s[i] <= '9' || s[i] == '-'
  }

  /** A letter or digit, or two of them with at most 61 letters, digits and hyphens between. */
  ghost predicate MatchesPattern(s: string) {
    || (|s| == 1 && IsAlnum(s[0]))
    || exists a, middle, b :: s == [a] + middle + [b] && IsAlnum(a) && IsAlnum(b) && Inner(middle) && |middle| <= 61
  }

  /** A slug is valid exactly when it matches the pattern. */
  lemma ValidSlugIff(s: string)
    ensures ValidSlug(s) <==> MatchesPattern(s)
  {
    if ValidSlug(s) && |s| > 1 {
      var middle := s[1..|s| - 1];
      assert s == [s[0]] + middle + [s[|s| - 1]];
      assert Inner(middle);
    }
    if MatchesPattern(s) && |s| != 1 {
      var a, middle, b :| s == [a] + middle + [b] && IsAlnum(a) && IsAlnum(b) && Inner(middle) && |middle| <= 61;
      PartsValid(a, middle, b);
    }
  }

  lemma PartsValid(a: char, middle: string, b: char)
    requires IsAlnum(a) && IsAlnum(b) && Inner(middle) && |middle| <= 61
    ensures ValidSlug([a] + middle + [b])
  {
    var s := [a] + middle + [b];
    forall i | 0 <= i < |s| ensures IsAlnum(s[i]) || s[i] == '-' {
      if 0 < i < |s| - 1 { assert s[i] == middle[i - 1]; }
    }
  }

  /** A valid slug takes the place of the first placeholder, and nothing else changes. */
  lemma ExpandMeans(template: string, slug: string, at: nat)
    requires ValidSlug(slug) && OccursAt(template, PLACEHOLDER, at)
    requires forall i: nat :: i < at ==> !OccursAt(template, PLACEHOLDER, i)
    ensures Expand(template, slug) == template[..at] + slug + template[at + 8..]
  {
    assert IndexFrom(template, PLACEHOLDER, 0) == at;
    PlainSubstitution(slug, template[..at], PLACEHOLDER, template[at + 8..]);
  }

  lemma {:induction false} PlainSubstitution(text: string, before: string, matched: string, after: string)
    requires forall i :: 0 <= i < |text| ==> text[i] != '$'
    ensures Substitution(text, before, matched, after) == text
    decreases |text|
  {
    if text != "" {
      PlainSubstitution(text[1..], before, matched, after);
    }
  }

  /** A URI matches with a slug exactly when it is the template expanded with that valid slug. */
  lemma MatchIff(template: string, uri: string, slug: string)
    ensures Match(template, uri) == Some(slug)
       <==> (exists i: nat :: OccursAt(template, PLACEHOLDER, i)) && ValidSlug(slug) && uri == Expand(template, slug)
  {
    var at := IndexFrom(template, PLACEHOLDER, 0);
    if at >= 0 {
      var prefix, suffix := template[..at], template[at + |PLACEHOLDER|..];
      if ValidSlug(slug) {
        PlainSubstitution(slug, prefix, PLACEHOLDER, suffix);
        Between(uri, prefix, slug, suffix);
      }
      Parts(uri, prefix, suffix);
    }
  }

  lemma Between(uri: string, prefix: string, middle: string, suffix: string)
    ensures uri == prefix + middle + suffix ==>
              prefix <= uri && uri[|uri| - |suffix|..] == suffix && uri[|prefix|..|uri| - |suffix|] == middle
  {
    if uri == prefix + middle + suffix {
      assert uri[|prefix|..|uri| - |suffix|] == middle;
      assert uri[|uri| - |suffix|..] == suffix;
    }
  }

  lemma Parts(uri: string, prefix: string, suffix: string)
    ensures |prefix| + |suffix| <= |uri| && prefix <= uri && uri[|uri| - |suffix|..] == suffix ==>
              uri == prefix + uri[|prefix|..|uri| - |suffix|] + suffix
  {
  }

  /** Two valid slugs never expand a template to the same URI. */
  lemma SlugUnique(template: string, slug: string, slug': string)
    requires exists i: nat :: OccursAt(template, PLACEHOLDER, i)
    requires ValidSlug(slug) && ValidSlug(slug') && Expand(template, slug) == Expand(template, slug')
    ensures slug == slug'
  {
    MatchIff(template, Expand(template, slug), slug);
    MatchIff(template, Expand(template, slug'), slug');
  }

  // ---------- The tenant of a host ----------

  datatype Resolved = Resolved(tenantSlug: string, redirectUri: string)

  function ResolveClient(scheme: string, baseHost: string, host: Option<string>): Option<Resolved> {
    if host.None? then None
    else
      var suffix := "." + Lower(baseHost);
      var lower := Lower(host.value);
      if |lower| < |suffix| || lower[|lower| - |suffix|..] != suffix then None
      else
        var slug := lower[..|lower| - |suffix|];
        if ValidSlug(slug) then Some(Resolved(slug, scheme + "://" + lower + "/auth/callback")) else None
  }

  /** The template a service is registered with. */
  function RegisteredTemplate(scheme: string, baseHost: string): string {
    scheme + "://" + PLACEHOLDER + "." + baseHost + "/auth/callback"
  }

  /** A host belongs to a tenant exactly when it is the tenant's slug before the base host, in any case. */
  lemma ResolveIff(scheme: string, baseHost: string, host: string, slug: string)
    ensures var r := ResolveClient(scheme, baseHost, Some(host));
            (r.Some? && r.value.tenantSlug == slug) <==> ValidSlug(slug) && Lower(host) == slug + "." + Lower(baseHost)
  {
    var suffix := "." + Lower(baseHost);
    var lower := Lower(host);
    assert slug + "." + Lower(baseHost) == slug + suffix;
    if |lower| >= |suffix| {
      assert lower == lower[..|lower| - |suffix|] + lower[|lower| - |suffix|..];
    }
  }

  lemma FirstPlaceholder(scheme: string, rest: string)
    requires '{' !in scheme
    ensures IndexFrom(scheme + "://" + PLACEHOLDER + rest, PLACEHOLDER, 0) == |scheme| + 3
  {
    var t := scheme + "://" + PLACEHOLDER + rest;
    assert OccursAt(t, PLACEHOLDER, |scheme| + 3);
    forall j: nat | j < |scheme| + 3 ensures !OccursAt(t, PLACEHOLDER, j) {
      assert t[j] == if j < |scheme| then scheme[j] else "://"[j - |scheme|];
      assert t[j] != '{';
      assert PLACEHOLDER[0] == '{';
      if j + |PLACEHOLDER| <= |t| { assert t[j..j + |PLACEHOLDER|][0] == t[j]; }
    }
  }

  /** The redirect URI of a host matches its service's template, with the tenant of that host,
      exactly when the base host is registered in lower case. */
  lemma RedirectUriMatchesIff(scheme: string, baseHost: string, host: string)
    requires '{' !in scheme
    requires ResolveClient(scheme, baseHost, Some(host)).Some?
    ensures var r := ResolveClient(scheme, baseHost, Some(host)).value;
            Match(RegisteredTemplate(scheme, baseHost), r.redirectUri) == Some(r.tenantSlug) <==>
                Lower(baseHost) == baseHost
  {
    var slug := ResolveClient(scheme, baseHost, Some(host)).value.tenantSlug;
    ResolvedUri(scheme, baseHost, host);
    ResolveIff(scheme, baseHost, host, slug);
    LowerLength(baseHost);
    RegisteredMatch(scheme, baseHost, slug, Lower(baseHost));
  }

  lemma ResolvedUri(scheme: string, baseHost: string, host: string)
    requires ResolveClient(scheme, baseHost, Some(host)).Some?
    ensures var r := ResolveClient(scheme, baseHost, Some(host)).value;
            r.redirectUri == scheme + "://" + r.tenantSlug + "." + Lower(baseHost) + "/auth/callback"
  {
    var r := ResolveClient(scheme, baseHost, Some(host)).value;
    ResolveIff(scheme, baseHost, host, r.tenantSlug);
    assert scheme + "://" + (r.tenantSlug + "." + Lower(baseHost))
        == scheme + "://" + r.tenantSlug + "." + Lower(baseHost);
  }

  lemma RegisteredMatch(scheme: string, baseHost: string, slug: string, lowered: string)
    requires '{' !in scheme && ValidSlug(slug) && |lowered| == |baseHost|
    ensures Match(RegisteredTemplate(scheme, baseHost), scheme + "://" + slug + "." + lowered + "/auth/callback")
        == Some(slug)
       <==> lowered == baseHost
  {
    ExpandRegistered(scheme, baseHost, slug);
    MatchIff(RegisteredTemplate(scheme, baseHost), scheme + "://" + slug + "." + lowered + "/auth/callback", slug);
    SameMiddle(scheme + "://" + slug + ".", lowered, baseHost, "/auth/callback");
  }

  lemma SameMiddle(begin: string, a: string, b: string, end: string)
    requires |a| == |b|
    ensures begin + a + end == begin + b + end <==> a == b
  {
    assert (begin + a + end)[|begin|..|begin| + |a|] == a;
    assert (begin + b + end)[|begin|..|begin| + |b|] == b;
  }

  lemma ExpandRegistered(scheme: string, baseHost: string, slug: string)
    requires '{' !in scheme && ValidSlug(slug)
    ensures Expand(RegisteredTemplate(scheme, baseHost), slug)
        == scheme + "://" + slug + "." + baseHost + "/auth/callback"
    ensures exists i: nat :: OccursAt(RegisteredTemplate(scheme, baseHost), PLACEHOLDER, i)
  {
    var prefix, suffix := scheme + "://", "." + baseHost + "/auth/callback";
    var template := RegisteredTemplate(scheme, baseHost);
    assert template == prefix + PLACEHOLDER + suffix;
    FirstPlaceholder(scheme, suffix);
    assert template[..|prefix|] == prefix && template[|prefix| + |PLACEHOLDER|..] == suffix;
    PlainSubstitution(slug, prefix, PLACEHOLDER, suffix);
    assert OccursAt(template, PLACEHOLDER, |prefix|);
    assert prefix + slug + suffix == scheme + "://" + slug + "." + baseHost + "/auth/callback";
  }

  lemma {:induction false} LowerLength(s: string)
    ensures |Lower(s)| == |s|
  {
    if s != "" { LowerLength(s[1..]); }
  }
}
