/**
 * The string and list operations the read loop applies to each line:
 * Python's `line.rstrip("\n")`, `line.split("\t")` and list indexing
 * `fields[k]`, including Python's negative indices.
 */
module Text {
  import opened Wrappers
  import opened ConfigStore

  /** `s.rstrip("\n")`: removes every trailing newline, and nothing else. */
  function StripNewlines(s: string): (r: string)
    ensures |r| <= |s| && r == s[..|r|]
    ensures |r| == 0 || r[|r| - 1] != '\n'
    ensures forall i :: |r| <= i < |s| ==> s[i] == '\n'
  {
    if |s| > 0 && s[|s| - 1] == '\n' then StripNewlines(s[..|s| - 1]) else s
  }

  /** A line read from the file loses exactly its one newline. */
  lemma StripOneNewline(line: string)
    requires |line| == 0 || line[|line| - 1] != '\n'
    ensures StripNewlines(line + "\n") == line
  {
    assert (line + "\n")[..|line|] == line;
  }

  /** The pieces of a split put back together with the separator between them. */
  function Join(parts: seq<string>, sep: char): string
    requires |parts| > 0
  {
    if |parts| == 1 then parts[0] else parts[0] + [sep] + Join(parts[1..], sep)
  }

  /**
   * `s.split(sep)` for a one-character separator: the pieces between
   * separators, empty pieces included; the empty string gives `[""]`.
   */
  function Split(s: string, sep: char): (r: seq<string>)
    ensures |r| > 0
    ensures forall i :: 0 <= i < |r| ==> sep !in r[i]
    ensures Join(r, sep) == s
  {
    if |s| == 0 then [""]
    else
      var rest := Split(s[1..], sep);
      if s[0] == sep then
        assert s == [sep] + s[1..];
        [""] + rest
      else
        var r := [[s[0]] + rest[0]] + rest[1..];
        assert r[1..] == rest[1..];
        assert |rest| > 1 ==> Join(rest, sep) == rest[0] + [sep] + Join(rest[1..], sep);
        assert s == [s[0]] + s[1..];
        r
  }

  /** A separator-free prefix joins the first piece of what follows it. */
  lemma {:induction false} SplitSeparatorFreePrefix(p: string, t: string, sep: char)
    requires sep !in p
    ensures Split(p + t, sep) == [p + Split(t, sep)[0]] + Split(t, sep)[1..]
  {
    if |p| > 0 {
      assert (p + t)[0] == p[0] && (p + t)[1..] == p[1..] + t;
      SplitSeparatorFreePrefix(p[1..], t, sep);
      assert [p[0]] + (p[1..] + Split(t, sep)[0]) == p + Split(t, sep)[0];
    } else {
      var r := Split(t, sep);
      assert p + t == t && p + r[0] == r[0];
      assert [r[0]] + r[1..] == r;
    }
  }

  /** Splitting undoes joining pieces that contain no separator. */
  lemma {:induction false} SplitJoin(parts: seq<string>, sep: char)
    requires |parts| > 0
    requires forall i :: 0 <= i < |parts| ==> sep !in parts[i]
    ensures Split(Join(parts, sep), sep) == parts
  {
    if |parts| == 1 {
      SplitSeparatorFreePrefix(parts[0], "", sep);
      assert parts[0] + "" == parts[0];
    } else {
      var tail := Join(parts[1..], sep);
      SplitJoin(parts[1..], sep);
      assert Split([sep] + tail, sep) == [""] + parts[1..] by {
        assert ([sep] + tail)[1..] == tail;
      }
      assert parts[0] + [sep] + tail == parts[0] + ([sep] + tail);
      SplitSeparatorFreePrefix(parts[0], [sep] + tail, sep);
      assert parts[0] + "" == parts[0];
      assert [parts[0]] + parts[1..] == parts;
    }
  }

  /** Python's `fields[k]`: a negative `k` counts from the end; out of range raises IndexError. */
  function PyIndex(fields: seq<string>, k: int): (r: Result<string, Fatal>)
    ensures r.Success? <==> -|fields| <= k < |fields|
    ensures r.Success? && 0 <= k ==> r.value == fields[k]
    ensures r.Success? && k < 0 ==> r.value == fields[|fields| + k]
    ensures r.Failure? ==> r.error == IndexErrorCrash
  {
    if 0 <= k < |fields| then Success(fields[k])
    else if -|fields| <= k < 0 then Success(fields[|fields| + k])
    else Failure(IndexErrorCrash)
  }
}
