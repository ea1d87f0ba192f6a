/** The conflictTarget argument of InsertUnique: a comma-separated list of column names. */
module ConflictTargets {
  import opened Whitespace

  /** What is between the commas, without the whitespace around it. */
  function TargetNames(target: string): (names: seq<string>)
    ensures |names| == |Split(target, ',')| && forall i :: 0 <= i < |names| ==> names[i] == TrimSpace(Split(target, ',')[i])
  {
    var parts := Split(target, ',');
    seq(|parts|, i requires 0 <= i < |parts| => TrimSpace(parts[i]))
  }

  /** The loop of SQL Server's and Oracle's InsertUnique. */
  method SplitTarget(target: string) returns (conflictCols: seq<string>)
    ensures conflictCols == TargetNames(target)
  {
    conflictCols := Split(target, ',');
    for i := 0 to |conflictCols|
      invariant |conflictCols| == |Split(target, ',')|
      invariant forall j :: 0 <= j < |conflictCols| ==>
        conflictCols[j] == if j < i then TrimSpace(Split(target, ',')[j]) else Split(target, ',')[j]
    {
      conflictCols := conflictCols[i := TrimSpace(conflictCols[i])];
    }
  }

  predicate Parenthesized(target: string) { |target| > 1 && target[0] == '(' && target[|target| - 1] == ')' }

  /** A single pair of outer parentheses goes away. */
  function Stripped(target: string): string {
    if Parenthesized(target) then target[1..|target| - 1] else target
  }

  /** Names listed with commas, and any whitespace around them, come back. */
  lemma NamesComeBack(parts: seq<string>, names: seq<string>)
    requires parts != [] && |parts| == |names|
    requires forall i :: 0 <= i < |parts| ==> Without(parts[i], ',') && TrimSpace(parts[i]) == names[i]
    ensures TargetNames(Join(parts, ',')) == names
    ensures Stripped("(" + Join(parts, ',') + ")") == Join(parts, ',')
  {
    hide Split, Join, TrimSpace;
    SplitJoin(parts, ',');
    var target := Join(parts, ',');
    assert ("(" + target + ")")[1..|target| + 1] == target;
  }
}
