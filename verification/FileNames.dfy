/** Where the extension of a file name starts. */
module FileNames {
  function LastDot(name: string): (i: int)
    ensures -1 <= i < |name|
    ensures i >= 0 ==> name[i] == '.' && '.' !in name[i + 1..]
  {
    if name == "" then -1
    else if name[|name| - 1] == '.' then |name| - 1
    else
      var i := LastDot(name[..|name| - 1]);
      assert i >= 0 ==> name[i + 1..] == name[..|name| - 1][i + 1..] + [name[|name| - 1]];
      i
  }

  lemma {:induction false} DotAfter(name: string, i: nat)
    requires i < |name| && name[i] == '.'
    ensures LastDot(name) >= i
    decreases |name|
  {
    if name[|name| - 1] != '.' {
      DotAfter(name[..|name| - 1], i);
    }
  }
}
