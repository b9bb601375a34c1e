/**
 * The application shell (frontend/src/routes/__root.tsx): the avatar
 * initials and display name of the signed-in user, and the breadcrumb trail
 * built from the router's matched routes.
 */
module RootLayout {
  import opened Wrappers
  import opened Text

  predicate IsAsciiAlphanumeric(c: char)
  {
    ('a' <= c <= 'z') || ('A' <= c <= 'Z') || ('0' <= c <= '9')
  }

  /** The characters `/[^a-zA-Z0-9@ ]/g` leaves in place. */
  predicate IsKept(c: char)
  {
    IsAsciiAlphanumeric(c) || c == '@' || c == ' '
  }

  /** `s.replace(/[^a-zA-Z0-9@ ]/g, "")`. */
  function KeepInitialChars(s: string): (r: string)
    ensures forall i | 0 <= i < |r| :: IsKept(r[i])
    ensures |r| <= |s|
  {
    if s == [] then []
    else (if IsKept(s[0]) then [s[0]] else []) + KeepInitialChars(s[1..])
  }

  /** A character of the separator class `[\s@]`. */
  predicate IsWordSeparator(c: char)
  {
    IsJsWhitespace(c) || c == '@'
  }

  predicate IsWordChar(c: char)
  {
    !IsWordSeparator(c)
  }

  /** `.split(/[\s@]+/).filter(Boolean)`: the maximal runs of non-separators, in order. */
  function Words(s: string): (words: seq<string>)
    ensures forall k | 0 <= k < |words| :: words[k] != [] && forall i | 0 <= i < |words[k]| :: IsWordChar(words[k][i])
    ensures forall k | 0 <= k < |words| :: words[k][0] in s
    decreases |s|
  {
    if s == [] then []
    else if IsWordSeparator(s[0]) then Words(s[1..])
    else
      var n := LeadingCount(s, IsWordChar);
      [s[..n]] + Words(s[n..])
  }

  /** Upper case of an ASCII letter; other characters are unchanged. */
  function UpperChar(c: char): (r: char)
    ensures ('a' <= c <= 'z') ==> ('A' <= r <= 'Z') && r as int == c as int - 32
    ensures !('a' <= c <= 'z') ==> r == c
  {
    if 'a' <= c <= 'z' then (c as int - 32) as char else c
  }

  /** The text `getInitials` reads: the trimmed name, else the email, else "". */
  function InitialsSource(name: Option<string>, email: Option<string>): string
  {
    if name.Some? && JsTrim(name.value) != "" then JsTrim(name.value)
    else if IsSet(email) then email.value
    else ""
  }

  /** `getInitials`: the upper-cased first characters of the first two words, or "U" when there is no word. */
  function Initials(name: Option<string>, email: Option<string>): (r: string)
    ensures 1 <= |r| <= 2
    ensures forall i | 0 <= i < |r| :: ('A' <= r[i] <= 'Z') || ('0' <= r[i] <= '9')
  {
    var parts := Words(KeepInitialChars(InitialsSource(name, email)));
    var first := if |parts| > 0 then UpperChar(parts[0][0]) else 'U';
    var second := if |parts| > 1 then [UpperChar(parts[1][0])] else [];
    [first] + second
  }

  /** With no word to read, the avatar shows "U"; otherwise it starts with the first word's initial. */
  lemma InitialsOfWords(name: Option<string>, email: Option<string>)
    ensures var parts := Words(KeepInitialChars(InitialsSource(name, email)));
      && (|parts| == 0 ==> Initials(name, email) == "U")
      && (|parts| > 0 ==> Initials(name, email)[0] == UpperChar(parts[0][0]))
      && (|Initials(name, email)| == 2 <==> |parts| >= 2)
      && (|parts| >= 2 ==> Initials(name, email)[1] == UpperChar(parts[1][0]))
  {
  }

  /** Text made only of kept characters passes the filter unchanged. */
  lemma {:induction false} KeepAllKept(s: string)
    requires forall i | 0 <= i < |s| :: IsKept(s[i])
    ensures KeepInitialChars(s) == s
  {
    if s != [] {
      KeepAllKept(s[1..]);
    }
  }

  /** A word followed by a separator, or by nothing, is the first word of the text. */
  lemma WordThenRest(w: string, rest: string)
    requires w != [] && forall i | 0 <= i < |w| :: IsWordChar(w[i])
    requires rest == [] || IsWordSeparator(rest[0])
    ensures Words(w + rest) == [w] + Words(rest)
  {
    var s := w + rest;
    var n := LeadingCount(s, IsWordChar);
    assert forall i | 0 <= i < |w| :: s[i] == w[i];
    assert rest != [] ==> s[|w|] == rest[0];
    assert s[..n] == w && s[n..] == rest;
  }

  predicate AllAlphanumeric(w: string)
  {
    forall i | 0 <= i < |w| :: IsAsciiAlphanumeric(w[i])
  }

  /** A name of two alphanumeric words joined by one space is read as it is and passes the filter. */
  lemma TwoWordSource(a: string, b: string, email: Option<string>)
    requires a != [] && AllAlphanumeric(a) && b != [] && AllAlphanumeric(b)
    ensures KeepInitialChars(InitialsSource(Some(a + " " + b), email)) == a + " " + b
  {
    var name := a + " " + b;
    assert name[0] == a[0] && name[|name| - 1] == b[|b| - 1];
    StripUnpadded(name, IsJsWhitespace);
    forall i | 0 <= i < |name|
      ensures IsKept(name[i])
    {
      if i < |a| { assert name[i] == a[i]; }
      else if i > |a| { assert name[i] == b[i - |a| - 1]; }
    }
    KeepAllKept(name);
  }

  /** Two alphanumeric words joined by one space split into those two words. */
  lemma TwoWordWords(a: string, b: string)
    requires a != [] && AllAlphanumeric(a) && b != [] && AllAlphanumeric(b)
    ensures Words(a + " " + b) == [a, b]
  {
    WordThenRest(b, []);
    assert b + [] == b;
    assert (" " + b)[1..] == b;
    assert Words(" " + b) == [b];
    WordThenRest(a, " " + b);
    assert a + (" " + b) == a + " " + b;
  }

  /**
   * A name of two words of letters and digits, joined by one space, gives
   * the upper-cased first characters of the two words, whatever the email.
   */
  lemma TwoWordInitials(a: string, b: string, email: Option<string>)
    requires a != [] && AllAlphanumeric(a) && b != [] && AllAlphanumeric(b)
    ensures Initials(Some(a + " " + b), email) == [UpperChar(a[0]), UpperChar(b[0])]
  {
    TwoWordSource(a, b, email);
    TwoWordWords(a, b);
    InitialsOfWords(Some(a + " " + b), email);
  }

  /** The user the shell shows. */
  datatype CurrentUser = CurrentUser(fullName: Option<string>, email: string)

  /** The display name: the full name, else the part of the email before its first '@', else "". */
  function DisplayName(user: Option<CurrentUser>): (r: string)
    ensures user.None? ==> r == ""
    ensures user.Some? && IsSet(user.value.fullName) ==> r == user.value.fullName.value
    ensures user.Some? && !IsSet(user.value.fullName) ==> StartsWith(user.value.email, r) && '@' !in r
  {
    if user.None? then ""
    else if IsSet(user.value.fullName) then user.value.fullName.value
    else
      var local := SplitOn(user.value.email, '@')[0];
      LocalPartIsPrefix(user.value.email);
      local
  }

  /** The first piece of a split on '@' is a prefix of the text. */
  lemma LocalPartIsPrefix(s: string)
    ensures StartsWith(s, SplitOn(s, '@')[0])
  {
    if '@' in s {
      var i := IndexOf(s, '@');
      assert SplitOn(s, '@')[0] == s[..i];
    }
  }

  /** The avatar initials: "" with no user, else from the display name and email. */
  function AvatarInitials(user: Option<CurrentUser>): (r: string)
    ensures user.None? <==> r == ""
    ensures user.Some? ==> 1 <= |r| <= 2
  {
    if user.None? then "" else Initials(Some(DisplayName(user)), Some(user.value.email))
  }

  /** The labels of known routes. */
  const BreadcrumbLabels: map<string, string> := map[
    "/" := "Home",
    "/app" := "App",
    "/app/dashboard" := "Dashboard",
    "/app/cvs/" := "My CVs",
    "/app/cvs/new" := "Create CV",
    "/app/cvs/$id/edit" := "Edit CV",
    "/app/cvs/$id/preview" := "Preview",
    "/app/cvs/$id/export" := "Export",
    "/app/account/profile" := "Profile",
    "/app/help/" := "Help",
    "/app/help/getting-started" := "Getting Started",
    "/app/help/faq" := "FAQ"]

  const RootRouteId := "__root__"
  const CvChildMarker := "/cvs/$id/"

  /** A matched route: its id, its `id` parameter, and its own pathname when the router gives one. */
  datatype RouteMatch = RouteMatch(routeId: string, idParam: Option<string>, pathname: Option<string>)

  datatype Crumb = Crumb(caption: string, to: string)

  /** A route under `/cvs/$id/` with an `id` parameter. */
  predicate IsCvChild(m: RouteMatch)
  {
    IsSet(m.idParam) && Contains(m.routeId, CvChildMarker)
  }

  /** The CV's crumb label: the title passed in the location state, else `CV {id}`. */
  function CvLabel(idParam: string, cvTitle: Option<string>): string
  {
    if IsSet(cvTitle) then cvTitle.value else "CV " + idParam
  }

  /** Every known route has a non-empty label, so `breadcrumbMap[id] ||` falls back only for unknown routes. */
  lemma LabelsNonEmpty()
    ensures forall id | id in BreadcrumbLabels :: BreadcrumbLabels[id] != ""
  {
  }

  /** The label of a match's own crumb: `breadcrumbMap[id] || (isCvChild ? cvLabel : "Page")`. */
  function Caption(m: RouteMatch, cvTitle: Option<string>): string
  {
    if m.routeId in BreadcrumbLabels && BreadcrumbLabels[m.routeId] != "" then BreadcrumbLabels[m.routeId]
    else if IsCvChild(m) then CvLabel(m.idParam.value, cvTitle)
    else "Page"
  }

  /** The crumbs one match pushes: the CV's edit page first for a CV child, then the route's own. */
  function MatchCrumbs(m: RouteMatch, locationPath: string, cvTitle: Option<string>): (crumbs: seq<Crumb>)
    requires m.routeId != RootRouteId
    ensures |crumbs| == (if IsCvChild(m) then 2 else 1)
    ensures IsCvChild(m) ==> crumbs[0] == Crumb(CvLabel(m.idParam.value, cvTitle), "/app/cvs/" + m.idParam.value + "/edit")
    ensures crumbs[|crumbs| - 1].to == (if m.pathname.Some? then m.pathname.value else locationPath)
    ensures crumbs[|crumbs| - 1].caption ==
      if m.routeId in BreadcrumbLabels then BreadcrumbLabels[m.routeId]
      else if IsCvChild(m) then CvLabel(m.idParam.value, cvTitle)
      else "Page"
  {
    LabelsNonEmpty();
    var to := if m.pathname.Some? then m.pathname.value else locationPath;
    (if IsCvChild(m) then [Crumb(CvLabel(m.idParam.value, cvTitle), "/app/cvs/" + m.idParam.value + "/edit")] else [])
    + [Crumb(Caption(m, cvTitle), to)]
  }

  /** The crumbs of all matches in order, the root match contributing none. */
  function Crumbs(matches: seq<RouteMatch>, locationPath: string, cvTitle: Option<string>): seq<Crumb>
  {
    if |matches| == 0 then []
    else
      var before := Crumbs(matches[..|matches| - 1], locationPath, cvTitle);
      var m := matches[|matches| - 1];
      if m.routeId == RootRouteId then before else before + MatchCrumbs(m, locationPath, cvTitle)
  }

  /** Non-root matches give one crumb each, CV children one more; the root match gives none. */
  function CrumbCount(matches: seq<RouteMatch>): nat
  {
    if |matches| == 0 then 0
    else
      var m := matches[|matches| - 1];
      CrumbCount(matches[..|matches| - 1]) + (if m.routeId == RootRouteId then 0 else if IsCvChild(m) then 2 else 1)
  }

  lemma {:induction false} CrumbsLength(matches: seq<RouteMatch>, locationPath: string, cvTitle: Option<string>)
    ensures |Crumbs(matches, locationPath, cvTitle)| == CrumbCount(matches)
  {
    if |matches| > 0 {
      CrumbsLength(matches[..|matches| - 1], locationPath, cvTitle);
    }
  }

  /** The root route alone yields no crumb. */
  lemma RootAloneHasNoCrumbs(pathname: Option<string>, locationPath: string, cvTitle: Option<string>)
    ensures Crumbs([RouteMatch(RootRouteId, None, pathname)], locationPath, cvTitle) == []
  {
    assert [RouteMatch(RootRouteId, None, pathname)][..0] == [];
  }

  /** One more match extends the crumbs by that match's own. */
  lemma CrumbsStep(matches: seq<RouteMatch>, i: int, locationPath: string, cvTitle: Option<string>)
    requires 0 <= i < |matches|
    ensures Crumbs(matches[..i + 1], locationPath, cvTitle) == Crumbs(matches[..i], locationPath, cvTitle)
      + (if matches[i].routeId == RootRouteId then [] else MatchCrumbs(matches[i], locationPath, cvTitle))
  {
    assert matches[..i + 1][..i] == matches[..i];
  }

  /** The breadcrumb builder: filters out the root match and pushes each match's crumbs in turn. */
  method BuildCrumbs(matches: seq<RouteMatch>, locationPath: string, cvTitle: Option<string>) returns (crumbs: seq<Crumb>)
    ensures crumbs == Crumbs(matches, locationPath, cvTitle)
  {
    crumbs := [];
    var i := 0;
    while i < |matches|
      invariant 0 <= i <= |matches|
      invariant crumbs == Crumbs(matches[..i], locationPath, cvTitle)
    {
      CrumbsStep(matches, i, locationPath, cvTitle);
      var m := matches[i];
      if m.routeId != RootRouteId {
        ghost var before := crumbs;
        var to := if m.pathname.Some? then m.pathname.value else locationPath;
        var cvChild := IsSet(m.idParam) && Contains(m.routeId, CvChildMarker);
        if cvChild {
          crumbs := crumbs + [Crumb(CvLabel(m.idParam.value, cvTitle), "/app/cvs/" + m.idParam.value + "/edit")];
        }
        crumbs := crumbs + [Crumb(Caption(m, cvTitle), to)];
        assert crumbs == before + MatchCrumbs(m, locationPath, cvTitle);
      }
      i := i + 1;
    }
    assert matches[..|matches|] == matches;
  }

  datatype FlaggedCrumb = FlaggedCrumb(caption: string, to: string, isLast: bool)

  /** `crumbs.map((crumb, idx) => ({ ...crumb, isLast: idx === crumbs.length - 1 }))`. */
  function MarkLast(crumbs: seq<Crumb>): (r: seq<FlaggedCrumb>)
    ensures |r| == |crumbs|
    ensures forall i | 0 <= i < |r| :: r[i].caption == crumbs[i].caption && r[i].to == crumbs[i].to
    ensures forall i | 0 <= i < |r| :: r[i].isLast <==> i == |r| - 1
  {
    if |crumbs| == 0 then []
    else
      var rest := MarkLast(crumbs[1..]);
      assert forall i | 1 <= i < |crumbs| :: crumbs[1..][i - 1] == crumbs[i];
      [FlaggedCrumb(crumbs[0].caption, crumbs[0].to, |crumbs| == 1)] + rest
  }
}
