/** The path patterns that routing rules use, and the first-match replacement
    that `String.prototype.replace` performs with a non-global pattern.

    A full regular-expression engine is not modelled.  A pattern is one of the
    shapes the routing table uses, and its meaning is given by `MatchSpan`,
    which yields the span of the leftmost match or nothing. */
module Pattern {
  import opened Wrappers

  /** A half-open span `[start, end)` of a string. */
  datatype Span = Span(start: nat, end: nat)

  datatype PathPattern =
      /** `^`: matches every string, with the empty match at index 0. */
    | AnchorStart
      /** `^prefix(\/|$)`: `prefix` at the start, then a `/` or the end of input. */
    | SegmentPrefix(prefix: string)

  /** `s` starts with the path segment `prefix`: either `s` is `prefix`
      itself, or `s` continues with `prefix + "/"`. */
  predicate StartsWithSegment(prefix: string, s: string)
  {
    s == prefix || prefix + "/" <= s
  }

  /** The span of the leftmost match of `p` in `s`, as `s.match(p)` finds it. */
  function MatchSpan(p: PathPattern, s: string): (r: Option<Span>)
    ensures r.Some? ==> r.value.start == 0 && r.value.end <= |s|
    ensures p.AnchorStart? ==> r == Some(Span(0, 0))
    ensures p.SegmentPrefix? ==> (r.Some? <==> StartsWithSegment(p.prefix, s))
    ensures p.SegmentPrefix? && r.Some? ==>
              s[..r.value.end] == (if s == p.prefix then p.prefix else p.prefix + "/")
  {
    match p
    case AnchorStart => Some(Span(0, 0))
    case SegmentPrefix(prefix) =>
      if |prefix| <= |s| && s[..|prefix|] == prefix then
        if |s| == |prefix| then
          Some(Span(0, |prefix|))
        else if s[|prefix|] == '/' then
          Some(Span(0, |prefix| + 1))
        else
          None
      else
        None
  }

  /** `s.replace(p, replacement)` for a non-global pattern: the first match
      of `p` is replaced by `replacement`; without a match, `s` is returned
      unchanged.  The replacement is taken literally. */
  function Replace(s: string, p: PathPattern, replacement: string): (r: string)
    ensures MatchSpan(p, s).None? ==> r == s
    ensures MatchSpan(p, s).Some? ==>
              var sp := MatchSpan(p, s).value;
              && |r| == |s| - (sp.end - sp.start) + |replacement|
              && r[..sp.start] == s[..sp.start]
              && r[sp.start..sp.start + |replacement|] == replacement
              && r[sp.start + |replacement|..] == s[sp.end..]
  {
    match MatchSpan(p, s)
    case None => s
    case Some(sp) => s[..sp.start] + replacement + s[sp.end..]
  }

  /** Replacing the empty match of `^` prepends the replacement. */
  lemma ReplaceAnchorStart(s: string, replacement: string)
    ensures Replace(s, AnchorStart, replacement) == replacement + s
  {
  }

  /** Replacing the segment match of `^prefix(\/|$)` swaps the leading
      segment, keeping whatever follows the matched `/`. */
  lemma ReplaceSegmentPrefix(prefix: string, s: string, replacement: string)
    requires StartsWithSegment(prefix, s)
    ensures s == prefix ==> Replace(s, SegmentPrefix(prefix), replacement) == replacement
    ensures s != prefix ==>
              Replace(s, SegmentPrefix(prefix), replacement) == replacement + s[|prefix| + 1..]
  {
  }
}
