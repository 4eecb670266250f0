/** The decomposition of `devServerTarget` (`project:target[:configuration]`)
    into the target specification handed to the Architect. */
module TargetSpecifier {
  import opened Wrappers

  /** Number of occurrences of `c` in `s`. */
  function Count(s: string, c: char): nat
  {
    if s == [] then 0 else (if s[0] == c then 1 else 0) + Count(s[1..], c)
  }

  /** `s.split(sep)` for a one-character separator: the maximal runs of `s`
      between separators, so there is always one more segment than separators
      and no segment contains the separator. */
  function Split(s: string, sep: char): (r: seq<string>)
    ensures |r| == Count(s, sep) + 1
    ensures forall i | 0 <= i < |r| :: sep !in r[i]
    decreases |s|
  {
    if s == [] then [""]
    else
      var rest := Split(s[1..], sep);
      if s[0] == sep then [""] + rest
      else [[s[0]] + rest[0]] + rest[1..]
  }

  /** `parts.join(sep)`. */
  function Join(parts: seq<string>, sep: char): string
  {
    if parts == [] then ""
    else if |parts| == 1 then parts[0]
    else parts[0] + [sep] + Join(parts[1..], sep)
  }

  /** Joining the segments of a split gives back the original string. */
  lemma {:induction false} JoinSplit(s: string, sep: char)
    ensures Join(Split(s, sep), sep) == s
    decreases |s|
  {
    if s != [] {
      var rest := Split(s[1..], sep);
      JoinSplit(s[1..], sep);
      if s[0] == sep {
        assert Split(s, sep) == [""] + rest;
        assert Split(s, sep)[1..] == rest;
      } else {
        var r := Split(s, sep);
        assert r == [[s[0]] + rest[0]] + rest[1..];
        if |rest| == 1 {
          assert s == [s[0]] + s[1..];
        } else {
          assert r[1..] == rest[1..];
          assert Join(rest, sep) == rest[0] + [sep] + Join(rest[1..], sep);
          assert s == [s[0]] + s[1..];
        }
      }
    }
  }

  /** A string without the separator splits into itself alone. */
  lemma {:induction false} SplitWithoutSeparator(a: string, sep: char)
    requires sep !in a
    ensures Split(a, sep) == [a]
    decreases |a|
  {
    if a != [] {
      SplitWithoutSeparator(a[1..], sep);
      assert [a[0]] + a[1..] == a;
    }
  }

  /** Splitting at the first separator peels off the leading segment. */
  lemma {:induction false} SplitAtFirstSeparator(a: string, sep: char, b: string)
    requires sep !in a
    ensures Split(a + [sep] + b, sep) == [a] + Split(b, sep)
    decreases |a|
  {
    if a == [] {
      assert a + [sep] + b == [sep] + b;
      assert ([sep] + b)[1..] == b;
    } else {
      SplitAtFirstSeparator(a[1..], sep, b);
      var s := a + [sep] + b;
      assert s[0] == a[0] && s[1..] == a[1..] + [sep] + b;
      assert [a[0]] + a[1..] == a;
    }
  }

  /** Splitting a join of separator-free segments gives back the segments. */
  lemma {:induction false} SplitJoin(parts: seq<string>, sep: char)
    requires |parts| >= 1
    requires forall i | 0 <= i < |parts| :: sep !in parts[i]
    ensures Split(Join(parts, sep), sep) == parts
    decreases |parts|
  {
    if |parts| == 1 {
      SplitWithoutSeparator(parts[0], sep);
    } else {
      SplitJoin(parts[1..], sep);
      SplitAtFirstSeparator(parts[0], sep, Join(parts[1..], sep));
      assert parts == [parts[0]] + parts[1..];
    }
  }

  /** The `watch: true` override that is always sent. */
  datatype Overrides = Overrides(watch: bool)

  /** `{project, target, configuration, overrides}`; `target` and
      `configuration` are `undefined` when the specifier has too few segments. */
  datatype TargetSpec = TargetSpec(project: string, target: Option<string>, configuration: Option<string>, overrides: Overrides)

  /** The segment at index `i`, or `undefined` past the end (array destructuring). */
  function Segment(parts: seq<string>, i: nat): Option<string>
  {
    if i < |parts| then Some(parts[i]) else None
  }

  /** The target specification built from `devServerTarget`: the first three
      `:`-separated segments, with no check of how many there are, and
      `overrides` forced to `{watch: true}`. */
  function ParseTargetSpec(devServerTarget: string): (r: TargetSpec)
    ensures r.overrides == Overrides(true)
    ensures r.target.None? <==> ':' !in devServerTarget
    ensures r.configuration.None? <==> Count(devServerTarget, ':') < 2
    ensures ':' !in r.project
    ensures r.target.Some? ==> ':' !in r.target.value
    ensures r.configuration.Some? ==> ':' !in r.configuration.value
  {
    var parts := Split(devServerTarget, ':');
    CountZeroIffAbsent(devServerTarget, ':');
    TargetSpec(parts[0], Segment(parts, 1), Segment(parts, 2), Overrides(true))
  }

  lemma {:induction false} CountZeroIffAbsent(s: string, c: char)
    ensures Count(s, c) == 0 <==> c !in s
    decreases |s|
  {
    if s != [] {
      CountZeroIffAbsent(s[1..], c);
      assert s == [s[0]] + s[1..];
    }
  }

  /** `project:target:configuration` gives all three parts. */
  lemma ParseThreeSegments(project: string, target: string, configuration: string)
    requires ':' !in project && ':' !in target && ':' !in configuration
    ensures ParseTargetSpec(project + ":" + target + ":" + configuration)
      == TargetSpec(project, Some(target), Some(configuration), Overrides(true))
  {
    var parts := [project, target, configuration];
    SplitJoin(parts, ':');
    assert parts[1..] == [target, configuration] && parts[1..][1..] == [configuration];
    assert Join([configuration], ':') == configuration;
    assert Join([target, configuration], ':') == target + [':'] + configuration;
    assert Join(parts, ':') == project + [':'] + (target + [':'] + configuration);
    assert project + [':'] + (target + [':'] + configuration) == project + ":" + target + ":" + configuration;
  }

  /** `project:target` still gives a specification; the configuration is undefined. */
  lemma ParseTwoSegments(project: string, target: string)
    requires ':' !in project && ':' !in target
    ensures ParseTargetSpec(project + ":" + target) == TargetSpec(project, Some(target), None, Overrides(true))
  {
    var parts := [project, target];
    SplitJoin(parts, ':');
    assert parts[1..] == [target];
    assert Join(parts, ':') == project + [':'] + target;
    assert project + [':'] + target == project + ":" + target;
  }

  /** Segments after the third are dropped without complaint. */
  lemma ParseIgnoresExtraSegments(project: string, target: string, configuration: string, extra: string)
    requires ':' !in project && ':' !in target && ':' !in configuration
    ensures ParseTargetSpec(project + ":" + target + ":" + configuration + ":" + extra)
      == TargetSpec(project, Some(target), Some(configuration), Overrides(true))
  {
    var s := project + ":" + target + ":" + configuration + ":" + extra;
    var tail := Split(extra, ':');
    assert s == project + [':'] + (target + [':'] + (configuration + [':'] + extra));
    SplitAtFirstSeparator(configuration, ':', extra);
    SplitAtFirstSeparator(target, ':', configuration + [':'] + extra);
    SplitAtFirstSeparator(project, ':', target + [':'] + (configuration + [':'] + extra));
    assert Split(s, ':') == [project, target, configuration] + tail;
  }

  /** A specifier with exactly two separators is recovered from its parts. */
  lemma ParseTargetSpecRoundTrip(devServerTarget: string)
    requires Count(devServerTarget, ':') == 2
    ensures var r := ParseTargetSpec(devServerTarget);
      r.target.Some? && r.configuration.Some? &&
      r.project + ":" + r.target.value + ":" + r.configuration.value == devServerTarget
  {
    var parts := Split(devServerTarget, ':');
    JoinSplit(devServerTarget, ':');
    assert parts == [parts[0], parts[1], parts[2]];
    assert parts[1..] == [parts[1], parts[2]] && parts[1..][1..] == [parts[2]];
    assert Join([parts[2]], ':') == parts[2];
    assert Join([parts[1], parts[2]], ':') == parts[1] + [':'] + parts[2];
    assert Join(parts, ':') == parts[0] + [':'] + (parts[1] + [':'] + parts[2]);
    assert parts[0] + [':'] + (parts[1] + [':'] + parts[2]) == parts[0] + ":" + parts[1] + ":" + parts[2];
  }
}
