/**
  The five commands of the tool, their names on the command line, the
  number of positional arguments each takes, and the usage line that
  documents them (cmd/ethatomicswap/main.go).
 */
module Commands {
  import opened Wrappers

  datatype Command = Initiate | Participate | Redeem | ExtractSecret | AuditContract

  /** The word that selects the command: a single lower-case word, so it contains no space or angle bracket. */
  function CommandName(c: Command): (r: string)
    ensures |r| > 0
    ensures forall i :: 0 <= i < |r| ==> 'a' <= r[i] <= 'z'
  {
    match c
    case Initiate => "initiate"
    case Participate => "participate"
    case Redeem => "redeem"
    case ExtractSecret => "extractsecret"
    case AuditContract => "auditcontract"
  }

  /** The switch on args[0] in run: a known word selects its command, any other word selects none. */
  function ParseCommand(name: string): (r: Option<Command>)
    ensures r.Some? ==> CommandName(r.value) == name
    ensures (exists c :: CommandName(c) == name) ==> r.Some?
  {
    if name == "initiate" then Some(Initiate)
    else if name == "participate" then Some(Participate)
    else if name == "redeem" then Some(Redeem)
    else if name == "extractsecret" then Some(ExtractSecret)
    else if name == "auditcontract" then Some(AuditContract)
    else None
  }

  /** Every command is recognised by its own name, and by no other. */
  lemma NameRoundTrip(c: Command, name: string)
    ensures ParseCommand(CommandName(c)) == Some(c)
    ensures ParseCommand(name) == Some(c) <==> name == CommandName(c)
  {
  }

  /**
    The placeholders the usage text lists after each command word, in
    order. Each is a non-empty phrase without angle brackets, so that
    enclosing it in brackets delimits it unambiguously.
   */
  function UsageParameters(c: Command): (ps: seq<string>)
    ensures |ps| >= 2
    ensures forall i :: 0 <= i < |ps| ==> |ps[i]| > 0 && '<' !in ps[i] && '>' !in ps[i]
  {
    match c
    case Initiate => ["participant address", "amount"]
    case Participate => ["initiator address", "amount", "secret hash"]
    case Redeem => ["contract", "contract transaction", "secret"]
    case ExtractSecret => ["redemption transaction", "secret hash"]
    case AuditContract => ["contract", "contract transaction"]
  }

  /** The number of positional arguments a command requires: one per documented parameter. */
  function Arity(c: Command): (r: nat)
    ensures 2 <= r <= 3
    ensures r == |UsageParameters(c)|
  {
    match c
    case Initiate => 2
    case Participate => 3
    case Redeem => 3
    case ExtractSecret => 2
    case AuditContract => 2
  }

  /** The arity table of run, keyed by the command word; unknown words have no arity. */
  function CommandArity(name: string): (r: Option<nat>)
    ensures r.Some? <==> ParseCommand(name).Some?
    ensures name == "initiate" ==> r == Some(2)
    ensures name == "participate" ==> r == Some(3)
    ensures name == "redeem" ==> r == Some(3)
    ensures name == "extractsecret" ==> r == Some(2)
    ensures name == "auditcontract" ==> r == Some(2)
    ensures r.Some? ==> 2 <= r.value <= 3
  {
    match ParseCommand(name)
    case None => None
    case Some(c) => Some(Arity(c))
  }

  /** Each parameter written as " <parameter>", as the usage line prints it. */
  function Placeholders(ps: seq<string>): (r: string)
    ensures |ps| == 0 <==> r == ""
    ensures |ps| > 0 ==> |r| >= 3 && r[..2] == " <" && r[|r| - 1] == '>'
  {
    if |ps| == 0 then "" else " <" + ps[0] + ">" + Placeholders(ps[1..])
  }

  /** The usage line of a command: its word followed by its bracketed parameters. */
  function UsageLine(c: Command): (r: string)
    ensures |CommandName(c)| < |r| && r[..|CommandName(c)|] == CommandName(c)
    ensures r[|CommandName(c)|] == ' '
  {
    CommandName(c) + Placeholders(UsageParameters(c))
  }

  /** How many times ch occurs in s. */
  function Occurrences(s: string, ch: char): nat {
    if |s| == 0 then 0 else (if s[0] == ch then 1 else 0) + Occurrences(s[1..], ch)
  }

  lemma {:induction false} OccurrencesAppend(a: string, b: string, ch: char)
    ensures Occurrences(a + b, ch) == Occurrences(a, ch) + Occurrences(b, ch)
  {
    if |a| > 0 {
      assert (a + b)[1..] == a[1..] + b;
      OccurrencesAppend(a[1..], b, ch);
    } else {
      assert a + b == b;
    }
  }

  lemma {:induction false} OccurrencesAbsent(s: string, ch: char)
    requires ch !in s
    ensures Occurrences(s, ch) == 0
  {
    if |s| > 0 {
      assert s[0] != ch;
      OccurrencesAbsent(s[1..], ch);
    }
  }

  /** Bracketing parameters that hold no '<' adds exactly one '<' per parameter. */
  lemma {:induction false} PlaceholdersOpenOncePerParameter(ps: seq<string>)
    requires forall i :: 0 <= i < |ps| ==> '<' !in ps[i]
    ensures Occurrences(Placeholders(ps), '<') == |ps|
  {
    if |ps| > 0 {
      var head := " <" + ps[0] + ">";
      OccurrencesAppend(" <" + ps[0], ">", '<');
      OccurrencesAppend(" <", ps[0], '<');
      OccurrencesAbsent(ps[0], '<');
      assert Occurrences(" <", '<') == 1;
      assert Occurrences(">", '<') == 0;
      OccurrencesAppend(head, Placeholders(ps[1..]), '<');
      PlaceholdersOpenOncePerParameter(ps[1..]);
    }
  }

  /** The arity table agrees with the usage text: a command's usage line shows exactly Arity placeholders. */
  lemma ArityMatchesUsage(c: Command)
    ensures Occurrences(UsageLine(c), '<') == Arity(c)
  {
    var name := CommandName(c);
    OccurrencesAppend(name, Placeholders(UsageParameters(c)), '<');
    OccurrencesAbsent(name, '<');
    PlaceholdersOpenOncePerParameter(UsageParameters(c));
  }

  /** Unfolding the rendering of short parameter lists. */
  lemma PlaceholdersOfOne(a: string)
    ensures Placeholders([a]) == " <" + a + ">"
  {
  }

  lemma PlaceholdersOfTwo(a: string, b: string)
    ensures Placeholders([a, b]) == " <" + a + ">" + " <" + b + ">"
  {
  }

  lemma PlaceholdersOfThree(a: string, b: string, c: string)
    ensures Placeholders([a, b, c]) == " <" + a + ">" + " <" + b + ">" + " <" + c + ">"
  {
    assert [a, b, c][1..] == [b, c];
    PlaceholdersOfTwo(b, c);
  }

  /** For each command, the pieces of its rendered line join to the text of the usage line. */
  lemma InitiateTextJoins()
    ensures "initiate" + " <" + "participant address" + ">" + " <" + "amount" + ">"
        == "initiate <participant address> <amount>"
  {
  }

  lemma InitiateLineAsPrinted()
    ensures UsageLine(Initiate) == "initiate <participant address> <amount>"
  {
    PlaceholdersOfTwo("participant address", "amount");
    InitiateTextJoins();
  }

  lemma ParticipateTextJoins()
    ensures "participate" + " <" + "initiator address" + ">" + " <" + "amount" + ">" + " <" + "secret hash" + ">"
        == "participate <initiator address> <amount> <secret hash>"
  {
  }

  lemma ParticipateLineAsPrinted()
    ensures UsageLine(Participate) == "participate <initiator address> <amount> <secret hash>"
  {
    PlaceholdersOfThree("initiator address", "amount", "secret hash");
    ParticipateTextJoins();
  }

  lemma RedeemTextJoins()
    ensures "redeem" + " <" + "contract" + ">" + " <" + "contract transaction" + ">" + " <" + "secret" + ">"
        == "redeem <contract> <contract transaction> <secret>"
  {
  }

  lemma RedeemLineAsPrinted()
    ensures UsageLine(Redeem) == "redeem <contract> <contract transaction> <secret>"
  {
    PlaceholdersOfThree("contract", "contract transaction", "secret");
    RedeemTextJoins();
  }

  lemma ExtractSecretTextJoins()
    ensures "extractsecret" + " <" + "redemption transaction" + ">" + " <" + "secret hash" + ">"
        == "extractsecret <redemption transaction> <secret hash>"
  {
  }

  lemma ExtractSecretLineAsPrinted()
    ensures UsageLine(ExtractSecret) == "extractsecret <redemption transaction> <secret hash>"
  {
    PlaceholdersOfTwo("redemption transaction", "secret hash");
    ExtractSecretTextJoins();
  }

  lemma AuditContractTextJoins()
    ensures "auditcontract" + " <" + "contract" + ">" + " <" + "contract transaction" + ">"
        == "auditcontract <contract> <contract transaction>"
  {
  }

  lemma AuditContractLineAsPrinted()
    ensures UsageLine(AuditContract) == "auditcontract <contract> <contract transaction>"
  {
    PlaceholdersOfTwo("contract", "contract transaction");
    AuditContractTextJoins();
  }

  /** The rendered lines are the command lines of the usage text, without their indentation. */
  lemma UsageLinesAsPrinted()
    ensures UsageLine(Initiate) == "initiate <participant address> <amount>"
    ensures UsageLine(Participate) == "participate <initiator address> <amount> <secret hash>"
    ensures UsageLine(Redeem) == "redeem <contract> <contract transaction> <secret>"
    ensures UsageLine(ExtractSecret) == "extractsecret <redemption transaction> <secret hash>"
    ensures UsageLine(AuditContract) == "auditcontract <contract> <contract transaction>"
  {
    InitiateLineAsPrinted();
    ParticipateLineAsPrinted();
    RedeemLineAsPrinted();
    ExtractSecretLineAsPrinted();
    AuditContractLineAsPrinted();
  }
}
