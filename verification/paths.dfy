/** The final component of an uploaded file's path, as `pathlib`'s `.name`
    computes it for POSIX paths: the text is split at every `/`, empty and
    `.` components are dropped, and the last remaining component is the name
    (the empty string when none remains). */
module Paths {

  /** The pieces of `s` between slashes, empty pieces included. */
  function Split(s: string): (r: seq<string>)
    ensures |r| >= 1
    ensures forall i :: 0 <= i < |r| ==> '/' !in r[i]
    decreases |s|
  {
    if |s| == 0 then [""]
    else
      var rest := Split(s[1..]);
      if s[0] == '/' then [""] + rest
      else [[s[0]] + rest[0]] + rest[1..]
  }

  /** A component that survives parsing: neither empty nor `.`. */
  predicate Significant(c: string) {
    c != "" && c != "."
  }

  function Significants(cs: seq<string>): (r: seq<string>)
    ensures forall i :: 0 <= i < |r| ==> Significant(r[i]) && r[i] in cs
  {
    if |cs| == 0 then []
    else if Significant(cs[0]) then [cs[0]] + Significants(cs[1..])
    else Significants(cs[1..])
  }

  function Parts(s: string): seq<string> {
    Significants(Split(s))
  }

  /** `Path(s).name`. */
  function Name(s: string): (n: string)
    ensures '/' !in n
  {
    var parts := Parts(s);
    if |parts| == 0 then "" else parts[|parts| - 1]
  }

  /** A file name as it appears inside a directory: one significant component. */
  predicate PlainName(n: string) {
    Significant(n) && '/' !in n
  }

  /** Splitting a joined path splits each side. */
  lemma {:induction false} SplitJoin(a: string, b: string)
    ensures Split(a + "/" + b) == Split(a) + Split(b)
    decreases |a|
  {
    if |a| == 0 {
      assert a + "/" + b == "/" + b;
      assert ("/" + b)[1..] == b;
    } else {
      var s := a + "/" + b;
      assert s[0] == a[0];
      assert s[1..] == a[1..] + "/" + b;
      SplitJoin(a[1..], b);
    }
  }

  lemma {:induction false} SplitPlain(n: string)
    requires '/' !in n
    ensures Split(n) == [n]
    decreases |n|
  {
    if |n| > 0 {
      SplitPlain(n[1..]);
      assert [n[0]] + n[1..] == n;
    }
  }

  lemma {:induction false} SignificantsAppend(a: seq<string>, b: seq<string>)
    ensures Significants(a + b) == Significants(a) + Significants(b)
    decreases |a|
  {
    if |a| == 0 {
      assert a + b == b;
    } else {
      assert (a + b)[1..] == a[1..] + b;
      SignificantsAppend(a[1..], b);
    }
  }

  /** The name of a file placed in a directory is the file's own name,
      whatever the directory path looks like. */
  lemma NameOfJoin(dir: string, n: string)
    requires PlainName(n)
    ensures Name(dir + "/" + n) == n
  {
    SplitJoin(dir, n);
    SplitPlain(n);
    SignificantsAppend(Split(dir), [n]);
    assert Significants([n]) == [n];
  }

  /** A bare file name is its own name. */
  lemma NameOfPlain(n: string)
    requires PlainName(n)
    ensures Name(n) == n
  {
    SplitPlain(n);
    assert Significants([n]) == [n];
  }

  /** `Path("/").name`, `Path("").name` and `Path(".").name` are all empty. */
  lemma NameOfNothing()
    ensures Name("/") == "" && Name("") == "" && Name(".") == ""
  {
    assert Split("/") == [""] + Split("");
    SplitPlain(".");
    assert Significants(["", ""]) == Significants([""]);
  }
}
