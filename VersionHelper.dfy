/**
 * VersionHelper: the application's informational version has the form
 * "<version>+<commit>"; these helpers take it apart. Reading the assembly attribute is
 * replaced by a parameter: None when the attribute is missing.
 */
module VersionHelper {
  import opened Wrappers
  import opened Framework

  /** The informational version, or "Unknown" when the assembly carries none. */
  function GetInformationalVersion(attribute: Option<string>): (version: string)
    ensures attribute.None? ==> version == "Unknown"
    ensures attribute.Some? ==> version == attribute.value
  {
    if attribute.Some? then attribute.value else "Unknown"
  }

  /** The text before the first '+', or the whole version when it has no '+'. */
  function GetVersion(attribute: Option<string>): (r: string)
    ensures var v := GetInformationalVersion(attribute);
      && |r| <= |v| && v[..|r|] == r && '+' !in r
      && (|r| < |v| ==> v[|r|] == '+')
  {
    var version := GetInformationalVersion(attribute);
    SplitFirstSegment(version, '+');
    Split(version, '+')[0]
  }

  /**
   * The second '+'-separated segment: the text after the first '+' up to the next '+'
   * or the end; null (None) when there is no '+'.
   */
  function GetCommit(attribute: Option<string>): (r: Option<string>)
    ensures var v := GetInformationalVersion(attribute);
      && (r.None? <==> '+' !in v)
      && (r.Some? ==>
            var rest := v[|GetVersion(attribute)| + 1..];
            && |r.value| <= |rest| && rest[..|r.value|] == r.value && '+' !in r.value
            && (|r.value| < |rest| ==> rest[|r.value|] == '+'))
  {
    var version := GetInformationalVersion(attribute);
    var split := Split(version, '+');
    SplitFirstSegment(version, '+');
    if |split| > 1 then
      var head := split[0];
      var rest := version[|head| + 1..];
      assert version == head + ['+'] + rest;
      SplitAtFirst(head, '+', rest);
      SplitFirstSegment(rest, '+');
      Some(split[1])
    else None
  }

  /** Without a '+' the version is the whole string and there is no commit. */
  lemma NoPlusNoCommit(v: string)
    requires '+' !in v
    ensures GetVersion(Some(v)) == v && GetCommit(Some(v)) == None
  {
    SplitWithoutSeparator(v, '+');
  }

  /** With exactly one '+', version, '+' and commit put the string back together. */
  lemma {:induction false} OnePlusReconstructs(version: string, commit: string)
    requires '+' !in version && '+' !in commit
    ensures var v := version + "+" + commit;
      GetCommit(Some(v)).Some? && GetVersion(Some(v)) + "+" + GetCommit(Some(v)).value == v
  {
    var v := version + "+" + commit;
    SplitAtFirst(version, '+', commit);
    SplitWithoutSeparator(commit, '+');
    assert Split(v, '+') == [version, commit];
  }

  /** A build without the attribute reports version "Unknown" and no commit. */
  lemma MissingAttribute()
    ensures GetVersion(None) == "Unknown" && GetCommit(None) == None
  {
    NoPlusNoCommit("Unknown");
  }
}
