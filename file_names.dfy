/** The string operations the player-data sync applies to user-data file names: `path.extname`,
    `replace(/-/g, '')` and `replace('.yml', '')`. */
module FileNames {

  /** `s` with every `c` removed (`s.replace(/c/g, '')`). */
  function RemoveAll(s: string, c: char): (r: string)
    ensures c !in r
    ensures forall x :: x in r ==> x in s
    ensures |r| <= |s|
  {
    if s == [] then [] else (if s[0] == c then [] else [s[0]]) + RemoveAll(s[1..], c)
  }

  lemma {:induction false} RemoveAllAppend(a: string, b: string, c: char)
    ensures RemoveAll(a + b, c) == RemoveAll(a, c) + RemoveAll(b, c)
  {
    if a == [] {
      assert a + b == b;
    } else {
      assert (a + b)[1..] == a[1..] + b;
      RemoveAllAppend(a[1..], b, c);
    }
  }

  lemma {:induction false} RemoveAllAbsent(s: string, c: char)
    requires c !in s
    ensures RemoveAll(s, c) == s
  {
    if s != [] {
      RemoveAllAbsent(s[1..], c);
    }
  }

  /** Removing `c` keeps every other character, as often as it occurs. */
  lemma {:induction false} RemoveAllKeepsOthers(s: string, c: char, x: char)
    requires x != c
    ensures multiset(RemoveAll(s, c))[x] == multiset(s)[x]
  {
    if s != [] {
      RemoveAllKeepsOthers(s[1..], c, x);
      assert s == [s[0]] + s[1..];
    }
  }

  predicate OccursAt(s: string, pat: string, i: int) {
    0 <= i && i + |pat| <= |s| && s[i..i + |pat|] == pat
  }

  /** The first index at or after `from` where `pat` occurs, or -1. */
  function IndexOfFrom(s: string, pat: string, from: nat): (k: int)
    requires from <= |s|
    ensures k == -1 || (from <= k && OccursAt(s, pat, k))
    ensures forall j :: from <= j < (if k == -1 then |s| + 1 else k) ==> !OccursAt(s, pat, j)
    decreases |s| - from
  {
    if OccursAt(s, pat, from) then from
    else if from == |s| then -1
    else IndexOfFrom(s, pat, from + 1)
  }

  /** `s.indexOf(pat)`. */
  function IndexOf(s: string, pat: string): (k: int)
    ensures k == -1 || OccursAt(s, pat, k)
    ensures forall j :: 0 <= j < (if k == -1 then |s| + 1 else k) ==> !OccursAt(s, pat, j)
  {
    IndexOfFrom(s, pat, 0)
  }

  /** `s.replace(pat, '')` with a string pattern: only the first occurrence goes. */
  function RemoveFirst(s: string, pat: string): (r: string)
    ensures forall x :: x in r ==> x in s
    ensures IndexOf(s, pat) == -1 ==> r == s
    ensures IndexOf(s, pat) >= 0 ==>
              |r| == |s| - |pat| && s == r[..IndexOf(s, pat)] + pat + r[IndexOf(s, pat)..]
  {
    var k := IndexOf(s, pat);
    if k == -1 then s
    else
      assert s == s[..k] + s[k..k + |pat|] + s[k + |pat|..];
      s[..k] + s[k + |pat|..]
  }

  /** The index of the last '.' in `s`, or -1. */
  function LastDot(s: string): (k: int)
    ensures -1 <= k < |s|
    ensures k >= 0 ==> s[k] == '.' && forall j :: k < j < |s| ==> s[j] != '.'
    ensures k == -1 ==> '.' !in s
  {
    if s == [] then -1
    else if s[|s| - 1] == '.' then |s| - 1
    else LastDot(s[..|s| - 1])
  }

  /** `path.extname` of a bare file name (no '/'): from the last '.' to the end, or "" when
      there is no '.', when the only '.' is the first character, or for "..". */
  function Extname(name: string): string {
    var k := LastDot(name);
    if k <= 0 || name == ".." then "" else name[k..]
  }

  /** An extension is a proper suffix of the name that starts with its last '.'; there is none
      exactly when the name has no '.', starts with its only '.', or is "..". */
  lemma ExtnameIsLastSuffix(name: string)
    ensures var ext := Extname(name);
            ext == "" || (|ext| < |name| && name[|name| - |ext|..] == ext && ext[0] == '.' && '.' !in ext[1..])
    ensures Extname(name) == "" <==> LastDot(name) <= 0 || name == ".."
  {
    var k := LastDot(name);
    if k > 0 && name != ".." {
      assert name[k..][1..] == name[k + 1..];
    }
  }

  /** A file is taken as YAML exactly when its name ends in ".yml" with something before it. */
  lemma ExtnameYml(name: string)
    ensures Extname(name) == ".yml" <==> |name| > 4 && name[|name| - 4..] == ".yml"
  {
    var k := LastDot(name);
    if |name| > 4 && name[|name| - 4..] == ".yml" {
      assert name[|name| - 4] == '.';
      assert forall j :: |name| - 4 < j < |name| ==> name[j] == name[|name| - 4..][j - (|name| - 4)];
      assert k == |name| - 4;
    }
    if Extname(name) == ".yml" {
      assert |name[k..]| == 4;
    }
  }

  /** The player id of a user-data file: hyphens removed, then the first ".yml". */
  function NormaliseId(fileName: string): (id: string)
    ensures '-' !in id
  {
    RemoveFirst(RemoveAll(fileName, '-'), ".yml")
  }

  /** In `t` + ".yml" with no '.' in `t`, the first ".yml" is the appended one. */
  lemma IndexOfAppendedYml(t: string)
    requires '.' !in t
    ensures IndexOf(t + ".yml", ".yml") == |t|
  {
    var s := t + ".yml";
    assert OccursAt(s, ".yml", |t|) by {
      assert s[|t|..|t| + 4] == ".yml";
    }
    forall j | 0 <= j < |t|
      ensures !OccursAt(s, ".yml", j)
    {
      assert s[j] == t[j] != '.';
    }
  }

  /** For a file named `stem` + ".yml" with no '.' in `stem` (a UUID file name), the id is the
      stem with its hyphens removed. */
  lemma NormaliseYmlName(stem: string)
    requires '.' !in stem
    ensures NormaliseId(stem + ".yml") == RemoveAll(stem, '-')
  {
    var t := RemoveAll(stem, '-');
    RemoveAllAppend(stem, ".yml", '-');
    RemoveAllAbsent(".yml", '-');
    assert RemoveAll(stem + ".yml", '-') == t + ".yml";
    IndexOfAppendedYml(t);
    assert (t + ".yml")[..|t|] == t;
  }

  /** Two different file names can give one id: "a-b.yml" and "ab.yml" both give "ab". */
  lemma DistinctNamesSameId()
    ensures NormaliseId("a-b.yml") == NormaliseId("ab.yml") == "ab"
  {
    assert "a-b" + ".yml" == "a-b.yml";
    assert "ab" + ".yml" == "ab.yml";
    NormaliseYmlName("a-b");
    NormaliseYmlName("ab");
    assert RemoveAll("a-b", '-') == "ab" by {
      assert "a-b" == "a-" + "b";
      RemoveAllAppend("a-", "b", '-');
      assert "a-" == "a" + "-";
      RemoveAllAppend("a", "-", '-');
      RemoveAllAbsent("a", '-');
      RemoveAllAbsent("b", '-');
    }
    RemoveAllAbsent("ab", '-');
  }
}
