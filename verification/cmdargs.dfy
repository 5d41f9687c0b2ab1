/**
  Counting the positional arguments a command can use before a flag
  appears (cmd/ethatomicswap/main.go, checkCmdArgLength).
 */
module CmdArgs {

  /** strings.HasPrefix: s begins with p. */
  predicate HasPrefix(s: string, p: string) {
    |p| <= |s| && s[..|p|] == p
  }

  /**
    The test of the scan: a length other than one and the prefix "-".
    Go measures len() in bytes; the two measures only matter here for
    arguments beginning with the one-byte '-', where a length of one byte
    and a length of one character both mean the argument is exactly "-".
   */
  predicate IsFlagLike(arg: string)
    ensures IsFlagLike(arg) <==> |arg| >= 2 && arg[0] == '-'
    ensures IsFlagLike(arg) ==> arg != "-" && arg != ""
  {
    |arg| != 1 && HasPrefix(arg, "-")
  }

  /** None of the first k arguments looks like a flag. */
  predicate NoFlagBefore(args: seq<string>, k: nat)
    requires k <= |args|
  {
    forall j :: 0 <= j < k ==> !IsFlagLike(args[j])
  }

  /**
    The characterisation of a correct count, independent of how it is
    computed: with enough arguments, n is the index of the first flag-like
    argument among the first `required`, or `required` when there is none;
    with too few arguments, n is 0.
   */
  predicate IsUsableCount(args: seq<string>, required: nat, n: nat) {
    if |args| < required then n == 0
    else
      && n <= required
      && NoFlagBefore(args, n)
      && (n == required || IsFlagLike(args[n]))
  }

  /**
    The range loop over args[:required], resumed at index i: it returns the
    index of the first flag-like argument at or after i, or `required`.
   */
  function Scan(args: seq<string>, required: nat, i: nat): (r: nat)
    requires required <= |args|
    requires i <= required
    ensures i <= r <= required
    ensures forall j :: i <= j < r ==> !IsFlagLike(args[j])
    ensures r < required ==> IsFlagLike(args[r])
    decreases required - i
  {
    if i == required then required
    else if IsFlagLike(args[i]) then i
    else Scan(args, required, i + 1)
  }

  /**
    checkCmdArgLength: the number of leading positional arguments usable by
    a command that needs `required` of them; 0 when fewer than `required`
    arguments were given at all.
   */
  function CheckCmdArgLength(args: seq<string>, required: nat): (n: nat)
    ensures n <= required
    ensures |args| < required ==> n == 0
    ensures IsUsableCount(args, required, n)
  {
    if |args| < required then 0
    else Scan(args, required, 0)
  }

  /** The characterisation admits exactly one count, the computed one. */
  lemma UsableCountIsUnique(args: seq<string>, required: nat, n: nat)
    ensures IsUsableCount(args, required, n) <==> n == CheckCmdArgLength(args, required)
  {
  }

  /** All `required` arguments are usable exactly when enough were given and none of them looks like a flag. */
  lemma FullCountIff(args: seq<string>, required: nat)
    ensures CheckCmdArgLength(args, required) == required
        <==> |args| >= required && NoFlagBefore(args, required)
  {
  }

  /** A short count points at a flag-like argument, and everything before it is positional. */
  lemma ShortCountStopsAtFlag(args: seq<string>, required: nat)
    requires |args| >= required
    requires CheckCmdArgLength(args, required) < required
    ensures IsFlagLike(args[CheckCmdArgLength(args, required)])
    ensures NoFlagBefore(args, CheckCmdArgLength(args, required))
  {
  }

  /** The lone "-" never stops the count. */
  lemma LoneDashIsPositional(args: seq<string>, required: nat)
    requires |args| >= required
    ensures !IsFlagLike("-")
    ensures CheckCmdArgLength(args, required) < required
        ==> args[CheckCmdArgLength(args, required)] != "-"
  {
  }

  /** Scan reads nothing at or beyond `required`: two lists that agree below it scan alike. */
  lemma ScanReadsOnlyPrefix(a: seq<string>, b: seq<string>, required: nat, i: nat)
    requires required <= |a| && required <= |b|
    requires i <= required
    requires forall j :: i <= j < required ==> a[j] == b[j]
    ensures Scan(a, required, i) == Scan(b, required, i)
  {
  }

  /**
    Only the arguments below `required` (and how many there are) matter:
    whatever follows them, the count is the same.
   */
  lemma IgnoresLaterArguments(args: seq<string>, rest: seq<string>, required: nat)
    requires |args| >= required
    ensures CheckCmdArgLength(args + rest, required) == CheckCmdArgLength(args, required)
  {
    ScanReadsOnlyPrefix(args + rest, args, required, 0);
  }

  /** Removing or replacing arguments at or after `required` leaves the count unchanged. */
  lemma DependsOnlyOnPrefix(a: seq<string>, b: seq<string>, required: nat)
    requires |a| >= required && |b| >= required
    requires a[..required] == b[..required]
    ensures CheckCmdArgLength(a, required) == CheckCmdArgLength(b, required)
  {
  }
}
