/**
 * The path test `/^\/([^/]+)(\/[^/]+)?$/.exec(pathname)` of the organization
 * slug rule: one or two non-empty segments without a slash, no trailing slash.
 * `MatchSlugs` computes the match the way a scanner would; `Matches` says what
 * a match is; the two lemmas show they agree on every path.
 */
module SlugPath {
  import opened Strings

  /** `[^/]+`: a non-empty run of characters other than '/'. */
  predicate Segment(s: string) {
    s != [] && '/' !in s
  }

  /**
   * The captured groups: `teamName` is group 1, `eventType` is group 2
   * (`undefined` when the optional part is absent), which keeps its slash.
   */
  datatype SlugMatch = SlugMatch(teamName: string, eventType: Option<string>)

  /** Group 2, or `""` when it did not take part: `eventType ?? ""`. */
  function EventTypeOrEmpty(m: SlugMatch): (r: string) {
    match m.eventType
    case None => ""
    case Some(e) => e
  }

  /** `path` is exactly what the regular expression accepts with groups `m`. */
  ghost predicate Matches(path: string, m: SlugMatch) {
    && Segment(m.teamName)
    && match m.eventType
       case None => path == "/" + m.teamName
       case Some(e) => |e| >= 1 && e[0] == '/' && Segment(e[1..]) && path == "/" + m.teamName + e
  }

  /** The regular expression's `exec`, `None` standing for `null`. */
  function MatchSlugs(path: string): (r: Option<SlugMatch>) {
    if path == [] || path[0] != '/' then None
    else
      var rest := path[1..];
      match IndexOfFrom(rest, "/", 0)
      case None => if rest == [] then None else Some(SlugMatch(rest, None))
      case Some(k) =>
        if k == 0 || k + 1 == |rest| || '/' in rest[k + 1..] then None
        else Some(SlugMatch(rest[..k], Some(rest[k..])))
  }

  /** Every match `MatchSlugs` reports is one the regular expression accepts. */
  lemma MatchSlugsSound(path: string)
    ensures MatchSlugs(path).Some? ==> Matches(path, MatchSlugs(path).value)
  {
    if path != [] && path[0] == '/' {
      var rest := path[1..];
      assert path == "/" + rest;
      match IndexOfFrom(rest, "/", 0)
      case None =>
        forall i | 0 <= i < |rest| ensures rest[i] != '/' {
          OccursAtChar(rest, '/', i);
        }
      case Some(k) =>
        OccursAtChar(rest, '/', k);
        forall i | 0 <= i < k ensures rest[i] != '/' {
          OccursAtChar(rest, '/', i);
        }
        assert rest == rest[..k] + rest[k..];
        assert rest[k..][1..] == rest[k + 1..];
    }
  }

  /** Every path the regular expression accepts is matched by `MatchSlugs`, with the same groups. */
  lemma MatchSlugsComplete(path: string, m: SlugMatch)
    requires Matches(path, m)
    ensures MatchSlugs(path) == Some(m)
  {
    var rest := path[1..];
    var t := m.teamName;
    forall i: nat | i < |t| ensures !OccursAt(rest, "/", i) {
      OccursAtChar(rest, '/', i);
    }
    match m.eventType
    case None =>
      assert rest == t;
      forall i: nat ensures !OccursAt(rest, "/", i) {
        OccursAtChar(rest, '/', i);
      }
    case Some(e) =>
      assert rest == t + e;
      OccursAtChar(rest, '/', |t|);
      assert IndexOfFrom(rest, "/", 0) == Some(|t|);
      assert rest[..|t|] == t;
      assert rest[|t|..] == e;
      assert rest[|t| + 1..] == e[1..];
  }

  /** The path test fails exactly when no split of the path into groups is accepted. */
  lemma MatchSlugsNone(path: string)
    ensures MatchSlugs(path).None? <==> forall m :: !Matches(path, m)
  {
    MatchSlugsSound(path);
    forall m | Matches(path, m) ensures MatchSlugs(path).Some? {
      MatchSlugsComplete(path, m);
    }
  }
}
