# ethatomicswap command-line validation

A Dafny model of the part of the `ethatomicswap` tool that has working
behaviour: the validation of command-line arguments that precedes command
dispatch, and the choice of the default Geth RPC port. The tool is meant to
run one leg of a cross-chain atomic swap; its swap commands (participate,
redeem, extractsecret, auditcontract) are empty scaffolding, so no
hash-time-locked-contract behaviour is modelled.

Modules:

- `CmdArgs` (`cmdargs.dfy`) — `checkCmdArgLength`: how many leading
  positional arguments a command can use before a flag-like argument (one
  that starts with `-` and is not the lone `-`). `IsUsableCount` states the
  count independently of the scan that computes it, and the two are proved
  to agree.
- `Commands` (`commands.dfy`) — the five command words, the arity table
  (initiate 2, participate 3, redeem 3, extractsecret 2, auditcontract 2) and
  the usage lines. The rendered usage line of each command is proved equal
  to the line the program prints (without indentation), and to show exactly
  as many bracketed placeholders as its command's arity.
- `Run` (`run.dfy`) — the validation prefix of `run` up to its arity check
  (main.go:141-145): an empty argument list shows usage without an error; an
  unknown command word is an error with usage; too few usable positional
  arguments is an error with usage; otherwise the arguments pass the arity
  check. The unexpected-argument check that follows (main.go:146-148) is left
  out and can still reject arguments that passed it.
- `Network` (`network.dfy`) — `walletPort`, which answers `8545` for every
  network name.
- `Wrappers` (`wrappers.dfy`) — the `Option` datatype.

Strings are `seq<char>`. Go measures `len` in bytes. The test
`len(arg) != 1` is evaluated on every argument, but it affects the result
only when the argument also begins with `-`. That `-` is one byte, so for
such an argument one byte and one character both mean the argument is `-`
itself, and the two measures give the same answer.

## Model

| member | source | states |
|---|---|---|
| CmdArgs.IsFlagLike | cmd/ethatomicswap/main.go:187 | the test "length other than one and prefix `-`" (the prefix test by `HasPrefix`, which models `strings.HasPrefix` as "at least as long, and the leading slice equals the prefix") holds exactly for arguments of at least two characters starting with `-`; neither `-` nor the empty argument is flag-like |
| CmdArgs.CheckCmdArgLength | cmd/ethatomicswap/main.go:182-192 | the count is at most `required`; it is 0 whenever fewer than `required` arguments exist; it satisfies the independent characterisation `IsUsableCount` (first flag-like index below `required`, or `required`) |
| CmdArgs.Scan | cmd/ethatomicswap/main.go:186-191 | the range loop from index i returns a value in [i, required], every argument it passes over is positional, and a value below `required` is the index of a flag-like argument |
| CmdArgs.UsableCountIsUnique | cmd/ethatomicswap/main.go:182-192 | a count meets the characterisation if and only if it is the one `checkCmdArgLength` returns |
| CmdArgs.FullCountIff | cmd/ethatomicswap/main.go:183-191 | the count equals `required` exactly when at least `required` arguments exist and none of the first `required` is flag-like |
| CmdArgs.ShortCountStopsAtFlag | cmd/ethatomicswap/main.go:186-189 | with enough arguments, a count i below `required` means `args[i]` is flag-like and every earlier argument is not |
| CmdArgs.LoneDashIsPositional | cmd/ethatomicswap/main.go:187 | the lone `-` is not flag-like and is never where the count stops |
| CmdArgs.ScanReadsOnlyPrefix | cmd/ethatomicswap/main.go:186-189 | two argument lists that agree on indices i to `required` scan to the same result |
| CmdArgs.IgnoresLaterArguments | cmd/ethatomicswap/main.go:186 | appending any arguments to a list that already has `required` of them does not change the count |
| CmdArgs.DependsOnlyOnPrefix | cmd/ethatomicswap/main.go:183-191 | two lists of sufficient length with the same first `required` arguments get the same count |
| Commands.CommandName | cmd/ethatomicswap/main.go:128-136 | each command word, as its case label, is a non-empty single lower-case word |
| Commands.ParseCommand | cmd/ethatomicswap/main.go:127-140 | a recognised word is the name of the command it selects, and every command name is recognised |
| Commands.NameRoundTrip | cmd/ethatomicswap/main.go:127-140 | each command is selected by its own name and by no other word |
| Commands.UsageParameters | cmd/ethatomicswap/main.go:67-71 | each command's usage line documents at least two parameters, each a non-empty phrase without angle brackets |
| Commands.Arity | cmd/ethatomicswap/main.go:128-137 | each command's arity is 2 or 3 and equals the number of parameters its usage line documents |
| Commands.CommandArity | cmd/ethatomicswap/main.go:126-140 | a word has an arity exactly when it is a command word; the table is exactly initiate 2, participate 3, redeem 3, extractsecret 2, auditcontract 2 |
| Commands.Placeholders | cmd/ethatomicswap/main.go:67-71 | the bracketed parameter part of a usage line is empty exactly when there are no parameters, and otherwise opens with " <" and ends with ">" |
| Commands.UsageLine | cmd/ethatomicswap/main.go:67-71 | a usage line begins with the command word followed by a space |
| Commands.UsageLinesAsPrinted | cmd/ethatomicswap/main.go:67-71 | the rendered line of each of the five commands equals, character for character, the line the usage text prints for it, without its two-space indentation |
| Commands.PlaceholdersOpenOncePerParameter | cmd/ethatomicswap/main.go:67-71 | bracketing a list of parameters that contain no `<` produces exactly one `<` per parameter |
| Commands.ArityMatchesUsage | cmd/ethatomicswap/main.go:67-71 | the rendered usage line of each command contains exactly as many `<` placeholders as the command's arity |
| Run.ErrorText | cmd/ethatomicswap/main.go:139-144 | the unknown-command text ends with the given word and the too-few-arguments text begins with it |
| Run.Validate | cmd/ethatomicswap/main.go:122-145 | no error and usage iff there are no arguments; every stop shows usage; an unknown-command error iff the word has no arity; a too-few-arguments error iff the count is below the arity; errors name the word; arguments that pass the arity check give the command exactly its arity of positional arguments, and command word, positional arguments and rest reassemble the input |
| Run.PassesArityCheckIff | cmd/ethatomicswap/main.go:141-145 | the arguments pass the arity check iff the word is known, enough arguments follow it and none of the first arity of them is flag-like |
| Run.CheckedArgumentsArePositional | cmd/ethatomicswap/main.go:141-145 | no positional argument that passed the arity check is flag-like |
| Run.SurplusArgumentPassesArityCheck | cmd/ethatomicswap/main.go:141-145 | for every surplus non-flag argument `extra`, `initiate addr 1 extra` passes the arity check with `extra` left in the rest, which the flag parser leaves positional and the unexpected-argument check then rejects |
| Network.WalletPort | cmd/ethatomicswap/main.go:220-229 | the default port is `8545` for every network name, testnet and mainnet among them |

## Left out

- Global flag parsing (`flagset.Parse`, main.go:121 and 142) and the "unexpected argument" check (main.go:146-148): they depend on Go's `flag` package. `Run.Validate` takes the argument list left after the first parse, and stops at the arity check. The second parse, of the arguments after the usable positional ones, stops at the first non-flag argument or after `--`. It uses `ExitOnError`, so an undefined flag, or a defined one missing its value (such as `-s` given last), that the parse reaches ends the process before the too-few-arguments test; `Run.Validate` models the runs where that parse returns. A defined flag that the parse reaches and that is complete (a boolean flag such as `-testnet`, or a string flag such as `-s` followed by its value) is consumed. Whatever the parse leaves unconsumed is rejected with "unexpected argument" and usage (for example `initiate addr 1 extra` with a non-flag `extra`), so passing the arity check does not mean the command runs.
- CmdArgs.CheckCmdArgLength: `required` is a natural number. A negative value would make the Go slice `args[:required]` panic; `run` only ever passes 2 or 3.
- The swap protocol (secret generation and hashing, contract building and parsing, redeem, refund, secret extraction): the command structs (main.go:82-105) and the dispatch branches (main.go:150-163) hold no logic.
- `normalizeAddress` (main.go:207-218): a wrapper over Go's host/port splitting and joining, whose semantics are outside this model.
- RPC dialing, the ten-second timeout and `initiateCmd.runCommand` (main.go:165-179, 194-205): network I/O against a Geth node.
- `main`, the usage printer and process exit codes (main.go:62-76, 107-118): console I/O. Only the command lines of the usage text are modelled, without their indentation.
- The constants `verify` and `secretSize` (main.go:22-24): declared but unused.
- The call through a nil command for the non-initiate commands (main.go:178): a panic in unfinished code, not behaviour.
