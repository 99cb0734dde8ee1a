/** The filename helpers of utils/file_utils.py: `os.path.splitext` as
    Windows applies it (either slash separates directories) and
    `create_unique_filename`, which tries `name.ext`, `name_1.ext`,
    `name_2.ext`, ... until one is not in the directory. The directory is the
    finite set of names it holds. */
module FileUtils {
  import opened Options
  import opened Text

  predicate IsSep(c: char) { c == '\\' || c == '/' }

  /** The index of the last character satisfying the test, or -1. */
  function LastIndex(p: string, isSep: bool): (r: int)
    ensures -1 <= r < |p|
    ensures r >= 0 ==> (if isSep then IsSep(p[r]) else p[r] == '.')
    ensures forall i :: r < i < |p| ==> (if isSep then !IsSep(p[i]) else p[i] != '.')
  {
    if |p| == 0 then -1
    else if (if isSep then IsSep(p[|p| - 1]) else p[|p| - 1] == '.') then |p| - 1
    else LastIndex(p[..|p| - 1], isSep)
  }

  /** Some character in `p[lo..hi]` is not a dot. */
  predicate HasNonDot(p: string, lo: int, hi: int)
    requires 0 <= lo && hi <= |p|
  {
    exists i :: lo <= i < hi && p[i] != '.'
  }

  /** `os.path.splitext(p)`: the extension runs from the last dot of the last
      path component, unless everything before that dot in the component is dots. */
  function SplitExt(p: string): (r: (string, string))
    ensures r.0 + r.1 == p
    ensures r.1 == [] || (r.1[0] == '.' && forall i :: 1 <= i < |r.1| ==> r.1[i] != '.' && !IsSep(r.1[i]))
    ensures r.1 != [] ==> HasNonDot(p, LastIndex(p, true) + 1, |r.0|)
    ensures LastIndex(p, false) > LastIndex(p, true) && HasNonDot(p, LastIndex(p, true) + 1, LastIndex(p, false)) ==>
      r.1 != [] && |r.0| == LastIndex(p, false)
  {
    var sepIndex := LastIndex(p, true);
    var dotIndex := LastIndex(p, false);
    if dotIndex > sepIndex && HasNonDot(p, sepIndex + 1, dotIndex) then
      assert p[..dotIndex] + p[dotIndex..] == p;
      (p[..dotIndex], p[dotIndex..])
    else
      assert p + [] == p;
      (p, [])
  }

  /** The name tried at step `k`: the plain name first, then `name_k.ext`. */
  function Attempt(stem: string, ext: string, k: nat): (name: string)
    ensures |name| >= |stem| + |ext|
    ensures k == 0 <==> |name| == |stem| + |ext|
  {
    if k == 0 then stem + ext else stem + "_" + NatToString(k) + ext
  }

  /** Every tried name starts with the stem and ends with the extension. */
  lemma AttemptShape(stem: string, ext: string, k: nat)
    ensures var name := Attempt(stem, ext, k);
      name[..|stem|] == stem && name[|name| - |ext|..] == ext
  {
    if k > 0 {
      var name := Attempt(stem, ext, k);
      assert name == stem + ("_" + NatToString(k) + ext);
      assert name == (stem + "_" + NatToString(k)) + ext;
    }
  }

  /** Different steps try different names. */
  lemma AttemptInjective(stem: string, ext: string, j: nat, k: nat)
    requires Attempt(stem, ext, j) == Attempt(stem, ext, k)
    ensures j == k
  {
    if j > 0 && k > 0 {
      var a := Attempt(stem, ext, j);
      var nj := NatToString(j);
      var nk := NatToString(k);
      assert |nj| == |nk|;
      assert a[|stem| + 1..|a| - |ext|] == nj;
      assert Attempt(stem, ext, k)[|stem| + 1..|a| - |ext|] == nk;
      NatToStringInjective(j, k);
    }
  }

  /** The names tried before step `n`. */
  function Tried(stem: string, ext: string, n: nat): set<string> {
    if n == 0 then {} else Tried(stem, ext, n - 1) + {Attempt(stem, ext, n - 1)}
  }

  lemma {:induction false} NotYetTried(stem: string, ext: string, n: nat, k: nat)
    requires k >= n
    ensures Attempt(stem, ext, k) !in Tried(stem, ext, n)
  {
    if n > 0 {
      NotYetTried(stem, ext, n - 1, k);
      if Attempt(stem, ext, k) == Attempt(stem, ext, n - 1) {
        AttemptInjective(stem, ext, k, n - 1);
      }
    }
  }

  /** The stem and extension: from `splitext` when no extension is given,
      else the base name whole with the given extension. */
  function StemAndExt(baseName: string, extension: Option<string>): (string, string) {
    if extension.None? then SplitExt(baseName) else (baseName, extension.value)
  }

  /** `name` is tried at some step, and every earlier step's name is taken. */
  ghost predicate FirstFreeStep(existing: set<string>, stem: string, ext: string, name: string) {
    exists k: nat :: name == Attempt(stem, ext, k) && forall j: nat :: j < k ==> Attempt(stem, ext, j) in existing
  }

  /** One failed try: the name tried at step `n` leaves the untried names, and
      there are fewer of them. */
  lemma NextAttempt(existing: set<string>, stem: string, ext: string, n: nat, remaining: set<string>)
    requires remaining == existing - Tried(stem, ext, n)
    requires forall j: nat :: j < n ==> Attempt(stem, ext, j) in existing
    requires Attempt(stem, ext, n) in existing
    ensures remaining - {Attempt(stem, ext, n)} == existing - Tried(stem, ext, n + 1)
    ensures |remaining - {Attempt(stem, ext, n)}| < |remaining|
    ensures forall j: nat :: j < n + 1 ==> Attempt(stem, ext, j) in existing
  {
    NotYetTried(stem, ext, n, n);
    assert Attempt(stem, ext, n) in remaining;
  }

  lemma FirstFreeAt(existing: set<string>, stem: string, ext: string, k: nat)
    requires forall j: nat :: j < k ==> Attempt(stem, ext, j) in existing
    ensures FirstFreeStep(existing, stem, ext, Attempt(stem, ext, k))
  {
  }

  /** The stem and extension the name is built from. */
  method ChooseStemAndExt(baseName: string, extension: Option<string>) returns (name: string, ext: string)
    ensures (name, ext) == StemAndExt(baseName, extension)
  {
    if extension.None? {
      var parts := SplitExt(baseName);
      name, ext := parts.0, parts.1;
    } else {
      name, ext := baseName, extension.value;
    }
  }

  /** The first name, in the order tried, that the directory does not hold. */
  method CreateUniqueFilename(baseName: string, existing: set<string>, extension: Option<string>)
    returns (newName: string)
    ensures newName !in existing
    ensures FirstFreeStep(existing, StemAndExt(baseName, extension).0, StemAndExt(baseName, extension).1, newName)
    ensures StemAndExt(baseName, extension).0 + StemAndExt(baseName, extension).1 !in existing ==>
      newName == StemAndExt(baseName, extension).0 + StemAndExt(baseName, extension).1
  {
    var name, ext := ChooseStemAndExt(baseName, extension);
    var counter := 1;
    newName := name + ext;
    ghost var remaining := existing;
    while newName in existing
      invariant counter >= 1
      invariant newName == Attempt(name, ext, counter - 1)
      invariant forall j: nat :: j < counter - 1 ==> Attempt(name, ext, j) in existing
      invariant remaining == existing - Tried(name, ext, counter - 1)
      decreases |remaining|
    {
      NextAttempt(existing, name, ext, counter - 1, remaining);
      remaining := remaining - {newName};
      newName := name + "_" + NatToString(counter) + ext;
      assert newName == Attempt(name, ext, counter);
      counter := counter + 1;
    }
    FirstFreeAt(existing, name, ext, counter - 1);
  }
}
