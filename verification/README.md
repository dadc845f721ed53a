# A verified model of the script machine, transactions, Merkle trees and chain indexers

This project models, in Dafny, the parts of the repository where the state and the branching are, and proves what they
are relied on for.

| file | what it models |
|---|---|
| `Bytes`, `ScriptNum`, `Der`, `Encoding` | byte strings, script numbers, DER signatures, reading and writing cursors |
| `Script` | scripts as chunks and as bytes, pushes, deletion |
| `Transactions`, `TransactionIO` | transactions, headers and blocks as bytes; the reading and writing loops |
| `Sighash` | the signature digest, as what it commits to and as the code that edits a copy |
| `Machine` | the script machine as functions: one step, a run, an evaluation, a verification |
| `Interpreter` | the same as a class that changes its stacks in place, proved equal to it method by method |
| `Structured` | nested conditionals, and why the flat machine runs them |
| `Bounds`, `Limits` | what every run of the machine keeps, and where its limits lie |
| `OpcodeLaws` | opcodes in terms of other opcodes, of numbers, and of what they undo |
| `SoftForks` | what the checks and flags mean, and which flags are safe to add |
| `Multisig`, `MultisigScripts`, `MultisigInput` | the greedy match of CHECKMULTISIG; multisig scripts; signature slots, up to the theorem when a fully signed input verifies |
| `PublicKeyHash` | who can spend an output that pays to the hash of a public key |
| `Builder`, `TransactionBuilder` | the transaction builder on values, with its fee and change; the class with cached sums and objects by reference |
| `Edits`, `Sizes` | inputs and settings over runs of edits; estimated sizes against printed ones |
| `Merkle`, `MerkleBlock` | Merkle trees as flat arrays; partial trees, their verifier, completeness and soundness |
| `TipProtocol`, `BalanceIndex`, `MinedCounter` | the tip-update protocol, and two indexers that run under it |
| `ServiceOrder` | the order in which services start and stop |

How things are modelled:

- Hash functions, public key parsing and the curve equation are the fields of a `Crypto` value; the double hashes are made of
  the single ones. `Sound` says what is used of them: output lengths, that strictly encoded keys parse, and that a signature
  which verifies has r and s between 1 and 2^256.
- An exception is a value: `None`, `Threw`, `Throws`, `Fail`, or `false` for a step of the machine, where `evaluate` turns
  an exception into false anyway.
- A loop or an update in place of the original is a loop or an update in place here, proved against a function; the
  lemmas are about the functions.
- Some methods and lemmas take a function value that stands for a costly one (`trial`, `exec`, `eval`, `walk`, `sent`). A
  predicate beside it says that it is that function; this only keeps the solver from unfolding it.

Where the code does not do what its callers may expect, the model follows the code, and the exact condition is proved:

- `findAndDelete` steps over the chunk behind a deletion (`Script.RunLeavesHalf`, `Script.DeletesAllIffNoneAdjacent`).
- A transaction without inputs and without a marker is misread, and a flag byte above 1 is rewritten
  (`Transactions.TxRoundTrip`).
- `number2Buffer` agrees with the other encoder up to 2^31 only, and can loop for ever (`ScriptNum.NumberToBuffer`,
  `ScriptNum.NumberToBufferDiverges`).
- `removeOutput` does not adjust the index of the change (`Builder.RemoveOutputIff`, `Builder.RemoveBeforeChangeFails`).
- The size estimate leaves out outpoint, script length and sequence number of every input, and sets one byte too few aside
  for a plain input whose signature takes 73 bytes with its type (`Sizes.EstimateAgainstPrint`, `Sizes.PublicKeyHashInFits`,
  `Sizes.MultisigInFits`, `Sizes.SignatureTakes73Iff`).
- A negative fee rate can break the balance of inputs, outputs and fee (`Builder.ChangeBalances`).
- The comments on the flags call LOW_S safe to add and STRICTENC not. In the code STRICTENC is; LOW_S, beside STRICTENC,
  takes the check of the hash type away, and CHECKLOCKTIMEVERIFY admits an opcode that discouraged NOPs refuse
  (`SoftForks.OnlyRestrictsIff`, `SoftForks.LowSWidens`, `SoftForks.LockTimeWidens`).
- `addSignature` accepts signatures under types that do not fit the byte the script carries
  (`MultisigInputs.VerifiesIffEnough`, `MultisigInputs.WideTypeFails`).
- A merkle block whose hashes are not 32 bytes long can be accepted and collect what is no leaf
  (`PartialTree.PartialTreeSound`, `PartialTree.ShortHashDeceives`).
- The balance index asks the node for balances through a cache, and stores an answer older than the block it stands for
  (`BalanceIndex.CaughtUpIsExactIff`, `BalanceIndex.CaughtUpIsExact`, `BalanceIndex.StaleAnswerIsStored`).
- The balance index never processes the first block (`BalanceIndex.CaughtUpIsExactIff`, `BalanceIndex.GenesisIsMissed`).
- The mined-blocks counter counts a retried block again (`MinedCounter.CountIsExactIff`, `MinedCounter.RetryCountsTwice`).
- Soundness of partial trees is stated with a collision as the alternative. No hash of 64 bytes to 32 is injective, so
  assuming one would assume a contradiction; the two colliding strings are among those actually hashed.

Check the project with `dafny verify dfyconfig.toml`.

## Model

| member | source | states |
|---|---|---|
| `Structured.FlatRefinesStructured` | silubiumcore-lib/lib/script/interpreter.js:535-574 | For every nested IF / NOTIF / ELSE* / ENDIF program, evaluating its flattening on the `vfExec` machine gives the same result as a recursive interpreter that runs only the branches taken, failures and limits included |
| `Structured.EvaluatedIsStructured` | silubiumcore-lib/lib/script/interpreter.js:535-574 | Conversely every script of parsed chunks whose evaluation succeeds is the flattening of such a program |
| `Structured.RunLive` | silubiumcore-lib/lib/script/interpreter.js:371-432 | A run of a flattened program in a live context is its structured execution, in memory, operation count and position |
| `Structured.RunDead` | silubiumcore-lib/lib/script/interpreter.js:376-432 | A run of a flattened program in a dead branch changes nothing but position and operation count, fails only on the checks made in dead branches, and comes back to the same conditional stack |
| `Bounds.StepKeeps` | silubiumcore-lib/lib/script/interpreter.js:371-1264 | Each successful step keeps `nOpCount` at most 201 and every element of both stacks at most 520 bytes, adds at most three elements, and outside IF..ENDIF in a dead branch leaves both stacks unchanged |
| `Bounds.EveryStateKept` | silubiumcore-lib/lib/script/interpreter.js:288-318 | The same for the state after any number of steps of any run |
| `Bounds.EvaluationKeepsBounds` | silubiumcore-lib/lib/script/interpreter.js:288-318 | A successful evaluation ends with an empty `vfExec`, at most 1000 elements on both stacks and at most 201 operations, and leaves elements of at most 520 bytes, so the next evaluation starts within the bounds |
| `Bounds.UnaryResultIsShort` | silubiumcore-lib/lib/script/interpreter.js:890-930 | The result of a unary numeric opcode on a readable operand takes at most five bytes |
| `Bounds.BinaryResultIsShort` | silubiumcore-lib/lib/script/interpreter.js:932-1022 | So does the result of a binary one |
| `Bounds.ExecOpBounded` | silubiumcore-lib/lib/script/interpreter.js:433-1264 | Every opcode adds at most three elements, each within 520 bytes, and charges at most twenty operations by itself |
| `SoftForks.OnlyRestrictsIff` | silubiumcore-lib/lib/script/interpreter.js:189-232 | Adding flags only restricts which scripts verify, over every environment whose `Crypto` is sound and every pair of scripts, if and only if it neither adds LOW_S beside a kept STRICTENC nor CHECKLOCKTIMEVERIFY beside a kept DISCOURAGE_UPGRADABLE_NOPS |
| `SoftForks.FlagsOnlyRestrict` | silubiumcore-lib/lib/script/interpreter.js:47-153 | Whatever verifies under some flags verifies under every part of them that loses no check that way |
| `SoftForks.EvaluationFollows` | silubiumcore-lib/lib/script/interpreter.js:288-318 | An evaluation that succeeds under the larger set of flags leaves the same stack under the smaller |
| `SoftForks.RunFollows` | silubiumcore-lib/lib/script/interpreter.js:371-1264 | So does every run from every state, conditionals and operation count included |
| `SoftForks.LowSWidens` | silubiumcore-lib/lib/script/interpreter.js:251-272 | A script with a printed signature of undefined hash type and an ignored CHECKSIG verifies under STRICTENC with LOW_S and fails under STRICTENC without it |
| `SoftForks.LockTimeWidens` | silubiumcore-lib/lib/script/interpreter.js:470-488 | A script that waits for height 1 verifies with CHECKLOCKTIMEVERIFY beside discouraged NOPs and fails without it |
| `CheckMeanings.AdmittedSignatures` | silubiumcore-lib/lib/script/interpreter.js:251-272 | Under DERSIG, LOW_S or STRICTENC the signature buffers admitted are exactly the printed forms, of at most 73 bytes, of signatures with a low s under LOW_S and a defined hash type under STRICTENC alone; without the three flags all are admitted |
| `CheckMeanings.StrictTrials` | silubiumcore-lib/lib/script/interpreter.js:275-281 | Under STRICTENC no exception is swallowed: one signature against one key fails the script exactly when the key is not valid or the buffer is no printed form of an allowed signature, and otherwise the outcome is what the curve says of that very signature |
| `CheckMeanings.PlainMeans` | silubiumcore-lib/lib/script/interpreter.js:72-104 | Without SIGPUSHONLY and P2SH verification is true exactly if the first script succeeds on nothing and the second leaves a number other than zero on what the first left, and false otherwise |
| `CheckMeanings.P2shMeans` | silubiumcore-lib/lib/script/interpreter.js:106-150 | P2SH takes away, of outputs to a script hash, exactly the spendings by scripts that do more than push and those whose hashed script does not leave a number other than zero on what lay below it |
| `CheckMeanings.SigPushOnlyMeans` | silubiumcore-lib/lib/script/interpreter.js:66-69 | SIGPUSHONLY takes away exactly the spendings by scripts that do more than push |
| `CheckMeanings.MinimalDataMeans` | silubiumcore-lib/lib/script/interpreter.js:420-431 | MINIMALDATA admits a whole push exactly if no other chunk pushes the same value in fewer bytes |
| `CheckMeanings.NullDummyMeans` | silubiumcore-lib/lib/script/interpreter.js:1230-1243 | NULLDUMMY takes away exactly the checks whose deepest argument is not empty |
| `CheckMeanings.CountsMean` | silubiumcore-lib/lib/script/interpreter.js:1139-1175 | The counts of a multisig check are accepted exactly if they are readable, in order, at most 20, and all arguments are there |
| `CheckMeanings.DefinedHashTypes` | silubiumcore-lib/lib/crypto/signature.js:288-298 | The defined hash types are 1, 2 and 3, alone or with 0x80 |
| `CheckMeanings.ExactlyOneIsLow` | silubiumcore-lib/lib/crypto/signature.js:276-282 | Of s and the order of the curve less s exactly one is low |
| `CheckMeanings.LockTimeIsAwaited` | silubiumcore-lib/lib/script/interpreter.js:332-366 | The check of a number succeeds if and only if the input is not final and, at every height and time, a transaction whose lock time has passed has passed the number too |
| `CheckMeanings.LockTimeOpMeans` | silubiumcore-lib/lib/script/interpreter.js:470-516 | With its flag the opcode succeeds if and only if the top is a readable number of at most five bytes, not negative, that the input waits for in that sense; it never changes the stacks |
| `CheckMeanings.BinaryLaws` | silubiumcore-lib/lib/script/interpreter.js:950-1006 | How the binary opcodes determine each other: SUB undoes ADD, MIN and MAX are ordered, come from the operands and add up to the sum, exactly one of the three comparisons holds, each negated comparison is NOT of its opposite, and the boolean ones are MIN and MAX of truth values |
| `OpcodeLaws.RearrangementLaws` | silubiumcore-lib/lib/script/interpreter.js:626-841 | DUP, OVER, 2DUP, 2OVER, 3DUP, SWAP, ROT, 2SWAP, 2ROT, 2DROP, NIP and TUCK each do what a series of numbers, PICK, ROLL and DROP does, failures included |
| `OpcodeLaws.VerifyFormLaws` | silubiumcore-lib/lib/script/interpreter.js:860-1255 | EQUALVERIFY, NUMEQUALVERIFY, CHECKSIGVERIFY and CHECKMULTISIGVERIFY each do what the plain opcode followed by VERIFY does, failures and costs included |
| `OpcodeLaws.VerifyIs` | silubiumcore-lib/lib/script/interpreter.js:576-593 | VERIFY fails exactly on an empty stack or a top that stands for zero, and otherwise takes the top away |
| `OpcodeLaws.TruthIsNonZero` | silubiumcore-lib/lib/script/interpreter.js:235-247 | An element is true exactly if the number it stands for is not zero |
| `OpcodeLaws.SmallStepLaws` | silubiumcore-lib/lib/script/interpreter.js:890-930 | 1ADD, 1SUB, NOT and 0NOTEQUAL are 1 ADD, 1 SUB, 0 NUMEQUAL and 0 NUMNOTEQUAL |
| `OpcodeLaws.SignLaws` | silubiumcore-lib/lib/script/interpreter.js:890-930 | NEGATE subtracts from zero, ABS is the greater of a number and its negative |
| `OpcodeLaws.NumberLaws` | silubiumcore-lib/lib/script/interpreter.js:435-462 | Each number opcode is the one before followed by 1ADD, and 1NEGATE is 1 NEGATE |
| `OpcodeLaws.WithinLaw` | silubiumcore-lib/lib/script/interpreter.js:1024-1042 | WITHIN is GREATERTHANOREQUAL of the lower bound and LESSTHAN of the upper |
| `OpcodeLaws.HashLaws` | silubiumcore-lib/lib/crypto/hash.js:22-43 | HASH160 is SHA256 RIPEMD160, HASH256 is SHA256 SHA256 |
| `OpcodeLaws.ThereAndBackLaw` | silubiumcore-lib/lib/script/interpreter.js:606-624 | TOALTSTACK FROMALTSTACK changes nothing, or fails on an empty stack |
| `OpcodeLaws.BackAndThereLaw` | silubiumcore-lib/lib/script/interpreter.js:606-624 | The same the other way round |
| `OpcodeLaws.ToAltDrops` | silubiumcore-lib/lib/script/interpreter.js:606-624 | TOALTSTACK leaves the stack that DROP leaves |
| `OpcodeLaws.MeasureLaws` | silubiumcore-lib/lib/script/interpreter.js:723-729 | DEPTH and SIZE push a number that is read as the depth or the size |
| `OpcodeLaws.SometimesLaws` | silubiumcore-lib/lib/script/interpreter.js:464-533 | IFDUP is DUP unless the top stands for zero; each reserved NOP is NOP2 without its flag; NOP is nothing |
| `OpcodeLaws.SeparatorCuts` | silubiumcore-lib/lib/script/interpreter.js:1078-1083 | Behind a separator exactly what follows it is signed, whatever stands before |
| `OpcodeLaws.SignaturesAreDropped` | silubiumcore-lib/lib/script/interpreter.js:1177-1186 | Where no two pushes of signatures are adjacent, the part they sign loses every such push and nothing else |
| `Limits.OperationLimit` | silubiumcore-lib/lib/script/interpreter.js:288-318 | 201 operations run and 202 do not; 1000 elements may be left and 1001 may not |
| `Limits.ElementLimit` | silubiumcore-lib/lib/script/interpreter.js:386-390 | 520 bytes may be pushed and 521 may not |
| `Limits.ScriptLimit` | silubiumcore-lib/lib/script/interpreter.js:288-292 | No script of more than 10000 bytes runs |
| `Limits.ForbiddenFail` | silubiumcore-lib/lib/script/interpreter.js:400-418 | The fifteen disabled opcodes, VERIF and VERNOTIF fail in every state, executed or not |
| `Limits.PushOnlyOnlyPushes` | silubiumcore-lib/lib/script/script.js:482-486 | A push-only script that succeeds has added one element for each of its chunks on top of the stack and done nothing else |
| `Limits.PushersArePushOnly` | silubiumcore-lib/lib/script/script.js:482-486 | Scripts of chunks that push under all flags are push-only |
| `Machine.CurveSees` | silubiumcore-lib/lib/crypto/ecdsa.js:165-180 | What the curve is asked: the double hash of the preimage as a big-endian number, 256^31 in the out-of-range SINGLE case, nothing where the digest throws |
| `Interpreters.IsTrue` | silubiumcore-lib/lib/script/interpreter.js:235-247 | True exactly when some byte is not zero, a lone sign bit in the last place not counted |
| `Interpreters.Interpreter.CopyOp` | silubiumcore-lib/lib/script/interpreter.js:638-772 | 2DUP, 3DUP, 2OVER, DUP and OVER push the elements the rearrangement table lists, and fail on a short stack |
| `Interpreters.Interpreter.PairOp` | silubiumcore-lib/lib/script/interpreter.js:682-706 | 2ROT and 2SWAP by splice and push give the rearrangement of the table |
| `Interpreters.Interpreter.SwapOp` | silubiumcore-lib/lib/script/interpreter.js:800-830 | ROT and SWAP by assignment in place give the rearrangement of the table |
| `Interpreters.Interpreter.DropOp` | silubiumcore-lib/lib/script/interpreter.js:626-841 | 2DROP, DROP, NIP and TUCK give the rearrangement of the table |
| `Interpreters.Interpreter.PickOrRoll` | silubiumcore-lib/lib/script/interpreter.js:775-798 | The element n below the top is copied or moved to the top; an unreadable, negative or too large n fails |
| `Interpreters.Interpreter.UnaryNumber` | silubiumcore-lib/lib/script/interpreter.js:890-930 | The number on top is replaced by the encoded result, or the step fails where it cannot be read |
| `Interpreters.Interpreter.BinaryNumber` | silubiumcore-lib/lib/script/interpreter.js:932-1022 | Two numbers are replaced by the encoded result, whose laws are `CheckMeanings.BinaryLaws`; NUMEQUALVERIFY consumes it or fails |
| `Interpreters.Interpreter.Subscript` | silubiumcore-lib/lib/script/interpreter.js:1177-1186 | The chunks from the last code separator on, without the pushes `findAndDelete` removes for each signature in turn |
| `Interpreters.Interpreter.CheckSig` | silubiumcore-lib/lib/script/interpreter.js:1085-1133 | Signature and key are replaced by the verdict; a bad encoding fails; an exception while reading or verifying counts as a signature that does not verify |
| `Interpreters.Interpreter.MatchSignatures` | silubiumcore-lib/lib/script/interpreter.js:1188-1221 | The loop over `isig` and `ikey` stays in its stack region and computes the greedy match of the signatures against the keys below it |
| `Interpreters.Interpreter.CheckMultisig` | silubiumcore-lib/lib/script/interpreter.js:1135-1255 | Both counts are read and checked, the keys are charged to `nOpCount`, and all arguments are replaced by the verdict |
| `Interpreters.Interpreter.Conditional` | silubiumcore-lib/lib/script/interpreter.js:535-574 | How the four conditionals change `vfExec` and the stack |
| `Interpreters.Interpreter.Step` | silubiumcore-lib/lib/script/interpreter.js:371-432 | One in-place step is one step of the specified machine, and fails exactly when that one does |
| `Interpreters.Interpreter.Evaluate` | silubiumcore-lib/lib/script/interpreter.js:288-318 | The loop over the chunks succeeds exactly when the specified evaluation does, and leaves its stack |
| `Interpreters.Interpreter.Verify` | silubiumcore-lib/lib/script/interpreter.js:47-153 | On a fresh interpreter, the two or three nested evaluations return true, return false or throw exactly as specified |
| `Interpreters.IsDisabled` | silubiumcore-lib/lib/script/interpreter.js:400-418 | The opcodes that fail even where they are not executed |
| `Interpreters.Interpreter.SmallNumber` | silubiumcore-lib/lib/script/interpreter.js:435-462 | Pushes the number an opcode from 1NEGATE to 16 stands for, encoded minimally |
| `Interpreters.Interpreter.TruthOp` | silubiumcore-lib/lib/script/interpreter.js:576-593 | VERIFY consumes a true element and fails on a false one; IFDUP doubles a true one |
| `Interpreters.Interpreter.AltStackOp` | silubiumcore-lib/lib/script/interpreter.js:606-624 | Moves the top between the stacks, or fails where there is none |
| `Interpreters.Interpreter.MeasureOp` | silubiumcore-lib/lib/script/interpreter.js:723-729 | DEPTH and SIZE push a size, encoded minimally |
| `Interpreters.Interpreter.Equal` | silubiumcore-lib/lib/script/interpreter.js:860-884 | Two elements are replaced by whether they are equal; EQUALVERIFY consumes that or fails, as EQUAL followed by VERIFY does (`OpcodeLaws.VerifyFormLaws`) |
| `Interpreters.Interpreter.Within` | silubiumcore-lib/lib/script/interpreter.js:1024-1042 | Three numbers are replaced by whether the first lies from the second up to below the third |
| `Interpreters.Interpreter.HashOp` | silubiumcore-lib/lib/script/interpreter.js:1047-1076 | The top is replaced by its hash |
| `Interpreters.Interpreter.CountMultisig` | silubiumcore-lib/lib/script/interpreter.js:1139-1175 | Both counts, where they are readable, in range, payable in operations, and all arguments are there |
| `Interpreters.Interpreter.FinishMultisig` | silubiumcore-lib/lib/script/interpreter.js:1223-1254 | Arguments and dummy go, NULLDUMMY is checked, the verdict comes |
| `Interpreters.Interpreter.ExecuteOp` | silubiumcore-lib/lib/script/interpreter.js:433-1259 | Every executed opcode that is neither a push nor a conditional has its specified effect and cost, unknown ones fail |
| `Interpreters.Interpreter.PushData` | silubiumcore-lib/lib/script/interpreter.js:420-431 | Pushes what is there in full and, if asked for, minimally; fails otherwise |
| `Interpreters.Interpreter.Redeem` | silubiumcore-lib/lib/script/interpreter.js:120-150 | Parses the script on top of the copied stack and runs it on the rest |
| `Matching.GreedyIffAssignable` | silubiumcore-lib/lib/script/interpreter.js:1188-1221 | Where no encoding check fails, the greedy loop succeeds if and only if an order-preserving one-to-one assignment of signatures to verifying keys exists, and it never aborts |
| `Matching.GreedyTrueIffAssignable` | silubiumcore-lib/lib/script/interpreter.js:1188-1221 | Whatever the form of the signatures, if a signature that verifies for one key fails the check for no other, the loop answers true if and only if such an assignment exists |
| `Matching.GreedyIsSound` | silubiumcore-lib/lib/script/interpreter.js:1188-1221 | A successful match yields such an assignment even where some encodings are bad |
| `Matching.GreedyIsComplete` | silubiumcore-lib/lib/script/interpreter.js:1188-1221 | Taking an early match never loses an assignment that exists |
| `Matching.MultisigRemovesItsArguments` | silubiumcore-lib/lib/script/interpreter.js:1223-1254 | Exactly nKeys + nSigs + 3 elements go, and the rest of both stacks stays |
| `MultisigInputs.FullySignedIffVerifies` | silubiumcore-lib/lib/transaction/input/multisig.js:87-135 | For signatures whose type fits a byte and that have the form the flags ask for, bare and behind a script hash: after any sequence of offers (some refused) and clearings, a fresh verification of the script written for the slots, installed in the transaction, against the output is true if and only if the input is fully signed (or the P2SH flag is off) |
| `MultisigInputs.VerifiesIffEnough` | silubiumcore-lib/lib/transaction/input/multisig.js:87-135 | End to end for every signature that can be offered: after any such run the verification is true if and only if the input is fully signed and the signatures, as the script carries them, can be assigned to the keys in order (or the P2SH flag is off) |
| `MultisigInputs.WideTypeFails` | silubiumcore-lib/lib/transaction/input/multisig.js:87-95 | A failing input of that: `addSignature` accepts a signature under a type such as 257, the script carries one byte of it, and the fully signed input does not verify |
| `MultisigInputs.RunKeepsSlots` | silubiumcore-lib/lib/transaction/input/multisigscripthash.js:86-125 | Every such run keeps at most `threshold` slots filled, each by a valid signature of the key it stands for |
| `MultisigInputs.OffersFill` | silubiumcore-lib/lib/transaction/input/multisig.js:87-95 | Valid signatures for different keys, up to the threshold and in any order, are all taken, and each fills a slot of its own key |
| `MultisigInputs.OfferIsTaken` | silubiumcore-lib/lib/transaction/input/multisig.js:87-121 | While the input is not full a valid signature takes the last place of its key, over an earlier one if need be; clearing leaves no signature |
| `MultisigInputs.SlotsAssign` | silubiumcore-lib/lib/transaction/input/multisig.js:106-116 | Where the types fit and the form is right, the signatures in slot order can be assigned to the keys in script order, and each passes the encoding checks |
| `MultisigInputs.MultisigInput.AddSignature` | silubiumcore-lib/lib/transaction/input/multisig.js:87-95 | Refused with nothing changed when fully signed, for an unknown key or an invalid signature; otherwise only the slot of its key changes and the script is rebuilt |
| `MultisigInputs.MultisigInput.ClearSignatures` | silubiumcore-lib/lib/transaction/input/multisig.js:118-121 | All slots emptied, the script rebuilt |
| `MultisigInputs.MultisigInput.CountSignatures` | silubiumcore-lib/lib/transaction/input/multisig.js:131-135 | The number of filled slots |
| `MultisigInputs.MultisigInput.IsFullySigned` | silubiumcore-lib/lib/transaction/input/multisig.js:123-125 | Filled slots equal the threshold |
| `MultisigInputs.MultisigInput.UpdateScript` | silubiumcore-lib/lib/transaction/input/multisigscripthash.js:96-104 | The input script is the dummy and the signatures in slot order, and for the script-hash form the redeem script |
| `MultisigInputs.NewMultisigInput` | silubiumcore-lib/lib/transaction/input/multisig.js:20-40 | For well-formed keys in any number, an input exists exactly when the sorted keys and the threshold make up the script the output pays to; its slots start empty |
| `MultisigInputs.BuildMultisigOut` | silubiumcore-lib/lib/script/script.js:698-718 | Refused when the threshold exceeds the keys or either exceeds 16; otherwise threshold, sorted keys, count, CHECKMULTISIG |
| `MultisigInputs.BuildMultisigIn` | silubiumcore-lib/lib/script/script.js:732-744 | The dummy, then a shortest push of each signature |
| `MultisigInputs.IndexKeys` | silubiumcore-lib/lib/transaction/input/multisig.js:29-32 | The last place of each key |
| `KeyOrder.SortIgnoresOrder` | silubiumcore-lib/lib/script/script.js:706-711 | The order in which the keys are given does not matter, and sorting them again changes nothing |
| `KeyOrder.SortOrders` | silubiumcore-lib/lib/script/script.js:706-711 | Sorting gives an ordered permutation |
| `KeyOrder.LeqIsNumeric` | silubiumcore-lib/lib/script/script.js:706-711 | Keys of one length are ordered as the numbers their bytes stand for |
| `MultisigScripts.BareMultisig` | silubiumcore-lib/lib/script/interpreter.js:47-153 | Verification of a bare multisig is true if the signatures are enough, that is, as many as the threshold and assignable to keys in order, and false otherwise |
| `MultisigScripts.ScriptHashMultisig` | silubiumcore-lib/lib/script/interpreter.js:106-150 | The same behind a script hash, the redeem script read back from the stack; true in any case without the P2SH flag |
| `MultisigScripts.EvaluateMultisig` | silubiumcore-lib/lib/script/interpreter.js:1135-1255 | A multisig script over the dummy and the signatures leaves true alone where they are enough, and fails or leaves false alone where they are not |
| `MultisigScripts.NothingToDropForAny` | silubiumcore-lib/lib/script/script.js:994-1008 | Deleting pushes of signatures takes nothing out of a multisig script |
| `MultisigScripts.HashOutLayout` | silubiumcore-lib/lib/script/script.js:833-843 | A built script-hash output has the 23 bytes `isScriptHashOut` looks for |
| `PublicKeyHash.SpendsIff` | silubiumcore-lib/lib/script/script.js:785-795 | A signature and a key spend a pay-to-public-key-hash output, under every choice of flags, if and only if the key hashes to the one paid to and the signature passes its check against it |
| `PublicKeyHash.WrittenSpendsIff` | silubiumcore-lib/lib/script/script.js:875-893 | For a printed signature and a valid key in terms of the curve: if and only if hash and signature are right and the signature has the form the flags ask for |
| `PublicKeyHash.WholeOutIsSigned` | silubiumcore-lib/lib/script/interpreter.js:1096-1110 | The signature is over the whole output, unless the hash paid to is the signature itself |
| `Script.ParseIffPrint` | silubiumcore-lib/lib/script/script.js:51-132 | A buffer parses to a list of chunks if and only if the list is of the form parsing makes and prints as the buffer, a truncated last push included; so printing what was parsed gives the same bytes |
| `Script.ParseScript` | silubiumcore-lib/lib/script/script.js:51-106 | The cursor loop computes that parse, and fails where the code throws |
| `Script.ToBufferAppend` | silubiumcore-lib/lib/script/script.js:108-132 | Printing respects concatenation |
| `Script.PushOfIsWhole` | silubiumcore-lib/lib/script/script.js:654-674 | A pushed buffer makes a chunk that reads back |
| `Script.ScriptBuilder.AddBuffer` | silubiumcore-lib/lib/script/script.js:654-674 | Appends the push with the shortest length field |
| `Script.ScriptBuilder.RemoveCodeseparators` | silubiumcore-lib/lib/script/script.js:676-684 | Keeps every other chunk, in order |
| `Script.ScriptBuilder.FindAndDelete` | silubiumcore-lib/lib/script/script.js:994-1008 | The in-place loop leaves what the skipping deletion leaves |
| `Script.RunLeavesHalf` | silubiumcore-lib/lib/script/script.js:997-1006 | A run of k adjacent matches leaves k / 2 of them, rounded down, and the rest of the script is treated as if it stood alone |
| `Script.DeletesAllIffNoneAdjacent` | silubiumcore-lib/lib/script/script.js:997-1006 | No match survives if and only if no two matches are adjacent |
| `Script.DeletesNothingElse` | silubiumcore-lib/lib/script/script.js:997-1006 | A script without a match is unchanged |
| `Script.MinimalPushIsShortest` | silubiumcore-lib/lib/script/script.js:1010-1042 | A push passes the test for minimal pushes if and only if no other chunk pushes the same value in fewer bytes |
| `Script.ParseChunk` | silubiumcore-lib/lib/script/script.js:60-98 | Reads one chunk at the cursor |
| `Script.ScriptHashOutIff` | silubiumcore-lib/lib/script/script.js:383-389 | Script-hash outputs are recognised by their bytes, exactly those of a 20-byte hash between the two opcodes |
| `ScriptNum.MinimalDecodingIsBijective` | silubiumcore-lib/lib/crypto/bn.js:137-173 | Minimal decoding gives n exactly for the encoding of n, if that is within the size limit: a bijection |
| `ScriptNum.DecodeEncode` | silubiumcore-lib/lib/crypto/bn.js:137-173 | Decoding inverts encoding for every integer |
| `ScriptNum.MinimalIffEncoded` | silubiumcore-lib/lib/crypto/bn.js:140-160 | The test for minimal encodings accepts exactly the encoder's image |
| `ScriptNum.EncodeLength` | silubiumcore-lib/lib/crypto/bn.js:97-117 | How many bytes an encoded number takes, sign bit included |
| `ScriptNum.DecodeBound` | silubiumcore-lib/lib/crypto/bn.js:42-64 | How large a number of so many bytes can be |
| `ScriptNum.FromScriptNumBuffer` | silubiumcore-lib/lib/crypto/bn.js:137-164 | Too long, or not minimal where that is asked for, is refused; otherwise the signed value |
| `ScriptNum.FromSM` | silubiumcore-lib/lib/crypto/bn.js:42-64 | Sign and magnitude as the code computes them in a reversed buffer |
| `ScriptNum.ToSMBigEndian` | silubiumcore-lib/lib/crypto/bn.js:97-117 | The big-endian form is the encoding reversed |
| `ScriptNum.ToScriptNumBuffer` | silubiumcore-lib/lib/crypto/bn.js:169-173 | The code's encoder computes the encoding |
| `ScriptNum.NumberToBuffer` | silubiumjs-lib/src/utils.js:162-179 | The second encoder gives the same bytes if and only if the magnitude is below 2^31 |
| `ScriptNum.NumberToBufferDiverges` | silubiumjs-lib/src/utils.js:166-169 | For a magnitude with bit 31 set its loop never ends: after any number of rounds the shifted value is still negative |
| `Der.WrittenSignatureIsCanonical` | silubiumcore-lib/lib/crypto/signature.js:167-186 | For r and s below 2^256 and any hash type byte, the printed signature passes the strict test, parses back to the same triple and takes 9 to 73 bytes |
| `Der.CanonicalSignatures` | silubiumcore-lib/lib/crypto/signature.js:205-269 | A buffer passes the strict test with a given reading if and only if it is what printing that signature gives, in at most 73 bytes |
| `Der.ParseDERIff` | silubiumcore-lib/lib/crypto/signature.js:90-142 | Without the strict flags a buffer is read exactly if it is a header, a length and two tagged integers, where the length counts these with anything behind them, or is greater with nothing behind them |
| `Encoding.VarintRoundTrip` | silubiumcore-lib/lib/encoding/bufferreader.js:120-141 | A printed varint up to 2^53 is read back, and the cursor stops at its end |
| `Encoding.VarintIsShortest` | silubiumcore-lib/lib/encoding/bufferwriter.js:106-126 | Of all forms a reader takes for a number below 2^53 the printed one is the shortest, and the only one of its length |
| `Encoding.WideVarints` | silubiumcore-lib/lib/encoding/bufferreader.js:120-141 | The nine-byte form is read exactly up to 2^53, as 2^53 for the next number, and refused above |
| `Encoding.AmountIsWritten` | silubiumcore-lib/lib/encoding/bufferwriter.js:88-92 | The bytes written for an amount are its value, and are eight exactly below 2^64, otherwise more |
| `Encoding.Int32RoundTrip` | silubiumcore-lib/lib/encoding/bufferreader.js:86-90 | A printed 32-bit integer is read back, negative ones included |
| `Encoding.UIntRoundTrip` | silubiumcore-lib/lib/encoding/bufferreader.js:56-84 | A printed unsigned integer is read back |
| `Encoding.VarLengthRoundTrip` | silubiumcore-lib/lib/encoding/bufferreader.js:144-150 | A length-prefixed buffer is read back |
| `Encoding.ListRoundTrip` | silubiumcore-lib/lib/transaction/transaction.js:386-397 | A printed list is read back if each of its items is |
| `Encoding.BufferReader.ReadVarintNum` | silubiumcore-lib/lib/encoding/bufferreader.js:120-141 | The reading cursor gives the specified value and end, or throws |
| `Encoding.BufferReader.ReadVarLengthBuffer` | silubiumcore-lib/lib/encoding/bufferreader.js:144-150 | Reads the prefix, then as many bytes, and throws where some are missing |
| `Encoding.BufferWriter.WriteVarintNum` | silubiumcore-lib/lib/encoding/bufferwriter.js:94-98 | Appends the varint, which is the shortest (`Encoding.VarintIsShortest`) |
| `Encoding.VarintBufNum` | silubiumcore-lib/lib/encoding/bufferwriter.js:106-126 | The bytes of the varint, written in halves where eight are needed; that they are the shortest is `Encoding.VarintIsShortest` |
| `Encoding.Pad` | silubiumcore-lib/lib/crypto/bn.js:191-200 | A short buffer gets leading zeros up to the size, in place |
| `Encoding.PaddedIsFixed` | silubiumcore-lib/lib/crypto/bn.js:71-95 | Padded natural bytes are the fixed-width encoding of a value that fits |
| `Encoding.BufferReader.ReadRaw` | silubiumcore-lib/lib/encoding/bufferreader.js:43-48 | The bytes up to the end of the buffer, the cursor moved past them in any case |
| `Encoding.BufferReader.ReadUIntLE` | silubiumcore-lib/lib/encoding/bufferreader.js:56-84 | The unsigned integer at the cursor, or an exception |
| `Encoding.BufferReader.ReadInt32LE` | silubiumcore-lib/lib/encoding/bufferreader.js:86-90 | The signed integer at the cursor, or an exception |
| `Encoding.BufferWriter.WriteReverse` | silubiumcore-lib/lib/encoding/bufferwriter.js:34-38 | Appends the bytes reversed |
| `Encoding.BufferWriter.WriteInt32LE` | silubiumcore-lib/lib/encoding/bufferwriter.js:68-73 | Appends a signed integer in four bytes |
| `Encoding.BufferWriter.WriteUInt64LE` | silubiumcore-lib/lib/encoding/bufferwriter.js:88-92 | Appends an amount in eight bytes |
| `Transactions.TxRoundTrip` | silubiumcore-lib/lib/transaction/transaction.js:289-413 | A printed transaction, whatever follows, is read back to the same value and end if and only if its marker is consistent: marker with flag byte 0 or 1, or no marker and at least one input |
| `Transactions.TxBytesInjective` | silubiumcore-lib/lib/transaction/transaction.js:289-337 | Different consistent transactions never print alike, even with other bytes behind |
| `Transactions.TransactionOnWire` | silubiumcore-lib/lib/transaction/transaction.js:289-337 | By position: version in the first four bytes, lock time in the last four, between them marker, counted inputs, counted outputs, witnesses |
| `Transactions.MarkerAndWitness` | silubiumcore-lib/lib/transaction/transaction.js:289-333 | A zero byte and the flag for a marked transaction, witness lists for a flagged one, nothing otherwise |
| `Transactions.InputOnWire` | silubiumcore-lib/lib/transaction/input/input.js:102-113 | By position: reversed id, index, counted script, sequence number |
| `Transactions.OutputOnWire` | silubiumcore-lib/lib/transaction/output.js:157-165 | By position: amount, counted script |
| `Transactions.HeaderOnWire` | silubiumcore-lib/lib/block/blockheader.js:241-261 | By position: each of the eleven fields |
| `Transactions.CutShort` | silubiumcore-lib/lib/transaction/output.js:145-155 | Data cut short by the end of the buffer: an input script throws, an output script is what is there |
| `Transactions.TxInRoundTrip` | silubiumcore-lib/lib/transaction/input/input.js:91-113 | A printed input is read back |
| `Transactions.TxOutRoundTrip` | silubiumcore-lib/lib/transaction/output.js:145-165 | A printed output is read back |
| `Transactions.WitnessRoundTrip` | silubiumcore-lib/lib/transaction/transaction.js:318-333 | A printed witness stack is read back |
| `Transactions.HeaderRoundTrip` | silubiumcore-lib/lib/block/blockheader.js:173-261 | A printed header, with its signature of any length, is read back |
| `Transactions.BlockRoundTrip` | silubiumcore-lib/lib/block/block.js:86-182 | A printed block is read back |
| `TransactionIO.ParseTransaction` | silubiumcore-lib/lib/transaction/transaction.js:363-413 | The cursor loops read a transaction as specified, or throw |
| `TransactionIO.WriteTransaction` | silubiumcore-lib/lib/transaction/transaction.js:289-337 | The writer appends exactly the printed transaction |
| `TransactionIO.ParseInput` | silubiumcore-lib/lib/transaction/input/input.js:91-100 | The input reader reads an input as specified |
| `TransactionIO.ParseOutput` | silubiumcore-lib/lib/transaction/output.js:145-155 | The output reader reads an output as specified |
| `TransactionIO.ParseWitnessStack` | silubiumcore-lib/lib/transaction/transaction.js:389-406 | Reads one witness list per input |
| `TransactionIO.WriteInput` | silubiumcore-lib/lib/transaction/input/input.js:102-113 | Appends exactly the printed input |
| `TransactionIO.WriteOutput` | silubiumcore-lib/lib/transaction/output.js:157-165 | Appends exactly the printed output |
| `Sighash.InputScriptsDoNotMatter` | silubiumcore-lib/lib/transaction/sighash.js:29-90 | No input script enters the digest, as long as all can be read |
| `Sighash.AllCommitsToEverything` | silubiumcore-lib/lib/transaction/sighash.js:29-90 | For ALL at one input index, equal preimages mean the same version, outpoints, sequences, outputs and lock time, and the same signed script; and the converse |
| `Sighash.SingleCommitsTo` | silubiumcore-lib/lib/transaction/sighash.js:62-77 | SINGLE at one input index: equal preimages mean equal version, lock time and marker, every outpoint, the own sequence number, the output beside the input and the signed script; and the converse, so other sequences and other outputs, in any number, are free |
| `Sighash.NoneCommitsTo` | silubiumcore-lib/lib/transaction/sighash.js:48-60 | NONE: the same without any output |
| `Sighash.AnyoneCanPayCommitsTo` | silubiumcore-lib/lib/transaction/sighash.js:79-81 | ANYONECANPAY, at any two indices: outpoint and sequence of the own input, the signed script, and of the outputs what the rest of the type says, SINGLE fixing the index as well; and the converse |
| `Sighash.OutOfRangeSingle` | silubiumcore-lib/lib/transaction/sighash.js:62-67 | SINGLE without an output beside the input gives one constant for all transactions |
| `Sighash.HashTypes` | silubiumcore-lib/lib/transaction/sighash.js:48-79 | The low five bits say which outputs, bit 7 whether other inputs count |
| `Sighash.SeparatorsAreNotSigned` | silubiumcore-lib/lib/transaction/sighash.js:37-39 | A separator anywhere in a script leaves the signed bytes as they are without it, and a script without any is signed as it prints |
| `Sighash.PreimagesEqualIffCommitmentsEqual` | silubiumcore-lib/lib/transaction/sighash.js:29-90 | For every two hash types, preimages are equal exactly when the hash types and the edited copies are; what that means in fields is `Sighash.AllCommitsToEverything` and the lemmas beside it |
| `Sighash.NoneIgnoresOutputs` | silubiumcore-lib/lib/transaction/sighash.js:48-60 | NONE: other outputs and other inputs' sequence numbers give the same digest |
| `Sighash.SingleIgnoresOtherOutputs` | silubiumcore-lib/lib/transaction/sighash.js:62-77 | SINGLE: only the output beside the input counts |
| `Sighash.AnyoneCanPayIgnoresOtherInputs` | silubiumcore-lib/lib/transaction/sighash.js:79-81 | ANYONECANPAY: other inputs may be anything, in any number |
| `Sighash.UnreadableScriptThrows` | silubiumcore-lib/lib/transaction/sighash.js:41-46 | An input that is null or whose script does not parse leaves no digest |
| `Sighash.CopyIsExact` | silubiumcore-lib/lib/transaction/transaction.js:99-102 | The copy by printing and parsing is the transaction itself |
| `Sighash.Sighash` | silubiumcore-lib/lib/transaction/sighash.js:29-90 | For every transaction whose fields fit, with or without a consistent marker, the loops that edit the copy compute the specified digest, constant and exceptions included |
| `Sighash.ShallowCopy` | silubiumcore-lib/lib/transaction/transaction.js:99-102 | The copy is what parsing the printed transaction gives: the transaction itself where its marker is consistent, another transaction or an exception where it is not |
| `Sighash.SignedScript` | silubiumcore-lib/lib/transaction/sighash.js:37-39 | The script parsed again, separators dropped |
| `Sighash.BlankScripts` | silubiumcore-lib/lib/transaction/sighash.js:41-44 | All scripts blanked, or an exception for an input that cannot be copied |
| `Sighash.EditInputs` | silubiumcore-lib/lib/transaction/sighash.js:46-57 | Only the signed input keeps a script; sequence numbers and other inputs are cleared by hash type |
| `Sighash.EditOutputs` | silubiumcore-lib/lib/transaction/sighash.js:59-77 | Outputs kept, dropped or blanked by hash type |
| `Builder.RunKeeps` | silubiumcore-lib/lib/transaction/transaction.js:872-957 | Over every run of edits the change output carries the change script and the exact remainder; without `removeOutput` the user's outputs are the ones asked for, in order until a sort, then as a permutation |
| `Builder.RunsHaveNoFeeError` | silubiumcore-lib/lib/transaction/transaction.js:217-247 | Over every run of edits from a new transaction, removals included: with a change output inputs equal outputs plus the fee deducted, and with a positive rate and no fixed fee `_hasFeeError` reports nothing |
| `Builder.EditKeeps` | silubiumcore-lib/lib/transaction/transaction.js:633-1117 | The same for each edit |
| `Builder.UpdateKeeps` | silubiumcore-lib/lib/transaction/transaction.js:937-956 | Recomputing the change establishes the invariant from any state and keeps the user's outputs |
| `Builder.ChangeBalances` | silubiumcore-lib/lib/transaction/transaction.js:976-1015 | With a change output, inputs equal outputs plus the fee deducted, and computing the fee again gives that fee, for every size; with a negative rate exactly where both sizes round up to the same kilobytes |
| `Builder.NoFeeError` | silubiumcore-lib/lib/transaction/transaction.js:217-247 | With a change output, a positive rate and no fixed fee, `_hasFeeError` reports nothing |
| `Builder.FeeErrorIff` | silubiumcore-lib/lib/transaction/transaction.js:217-247 | No fee error exactly if the fee is the one set, where one is, at most fifteen times the estimate and at least a fifteenth of it; Different exactly for another fee than the one set |
| `Builder.EstimateBounds` | silubiumcore-lib/lib/transaction/transaction.js:1008-1015 | With a positive rate the estimate pays at least the rate for every byte of the estimated size, of the size with a change output where more is left, and less than a kilobyte beyond it; a missing or zero rate is 10000 |
| `Builder.FeeIsWhatIsLeft` | silubiumcore-lib/lib/transaction/transaction.js:976-991 | Inputs equal outputs plus: all that is left without a change script, exactly the fee set with a change output, nothing in a coinbase |
| `Builder.AddressScriptIsShort` | silubiumcore-lib/lib/script/script.js:905-913 | The script of an address takes 25 or 23 bytes, so a change output fits the size reserved for it |
| `Builder.RemoveOutputIff` | silubiumcore-lib/lib/transaction/transaction.js:1028-1037 | `removeOutput` leaves the user's other outputs, and only them, if and only if there is no change, the index is above the change, it is the change in last place, or the output behind the change equals it |
| `Builder.RemoveBeforeChangeFails` | silubiumcore-lib/lib/transaction/transaction.js:1028-1037 | A transaction with one output and its change, where removing the output leaves the old change behind |
| `TransactionBuilder.Transaction.UpdateChangeOutput` | silubiumcore-lib/lib/transaction/transaction.js:937-956 | In place, by reference: takes the old change out and puts the new one at the end; cached sums stay exact or unset |
| `TransactionBuilder.Transaction.GetFeeAmount` | silubiumcore-lib/lib/transaction/transaction.js:976-991 | Zero for a coinbase, the fixed fee, what is unspent without a change script, or the estimate |
| `TransactionBuilder.Transaction.EstimateFee` | silubiumcore-lib/lib/transaction/transaction.js:993-1026 | The estimate from sizes and the available amount |
| `TransactionBuilder.Transaction.GetOutputAmount` | silubiumcore-lib/lib/transaction/transaction.js:906-915 | The sum, from the cache if it is set |
| `TransactionBuilder.Transaction.GetInputAmount` | silubiumcore-lib/lib/transaction/transaction.js:923-935 | The sum, from the cache if it is set |
| `TransactionBuilder.Transaction.From` | silubiumcore-lib/lib/transaction/transaction.js:633-655 | Adds an input unless its outpoint is there already |
| `TransactionBuilder.Transaction.To` | silubiumcore-lib/lib/transaction/transaction.js:827-844 | Adds an output, refusing a negative amount |
| `TransactionBuilder.Transaction.Clear` | silubiumcore-lib/lib/transaction/transaction.js:885-892 | Drops all outputs and recomputes the change |
| `TransactionBuilder.Transaction.RemoveOutputAt` | silubiumcore-lib/lib/transaction/transaction.js:1034-1037 | Removes by index with the change index as it was |
| `TransactionBuilder.Transaction.RemoveInputAt` | silubiumcore-lib/lib/transaction/transaction.js:1119-1139 | Removes an input, refusing an index outside |
| `TransactionBuilder.Transaction.NewOutputOrder` | silubiumcore-lib/lib/transaction/transaction.js:1103-1117 | Accepts a list of the distinct outputs if and only if it is a permutation of them; the change index follows by value |
| `TransactionBuilder.CoveredIsPermutation` | silubiumcore-lib/lib/transaction/transaction.js:1104-1108 | Equal length and nothing missing make distinct elements a permutation |
| `TransactionBuilder.Transaction.AddData` | silubiumcore-lib/lib/transaction/transaction.js:857-863 | Adds an output of zero |
| `TransactionBuilder.Transaction.SetChange` | silubiumcore-lib/lib/transaction/transaction.js:793-798 | Sets the change script and recomputes the change |
| `TransactionBuilder.Transaction.SetFee` | silubiumcore-lib/lib/transaction/transaction.js:760-765 | Sets the fee and recomputes the change |
| `TransactionBuilder.Transaction.SetFeePerKb` | silubiumcore-lib/lib/transaction/transaction.js:775-780 | Sets the rate and recomputes the change |
| `TransactionBuilder.Transaction.EstimateSize` | silubiumcore-lib/lib/transaction/transaction.js:1017-1026 | The loops give the estimate that `Sizes.EstimateAgainstPrint` compares with the printed size |
| `TransactionBuilder.Transaction.DropOutput` | silubiumcore-lib/lib/transaction/transaction.js:1028-1032 | Takes out one object by reference, nothing for an index outside |
| `TransactionBuilder.Transaction.IsOrder` | silubiumcore-lib/lib/transaction/transaction.js:1104-1108 | Length and difference tell a permutation of distinct outputs |
| `TransactionBuilder.Transaction.IsSpent` | silubiumcore-lib/lib/transaction/transaction.js:640-646 | Whether an input spends the same outpoint |
| `TransactionBuilder.Transaction.SortInputsTo` | silubiumcore-lib/lib/transaction/transaction.js:1097-1101 | Takes any list and keeps the rest: a permutation keeps the whole invariant, and cached sums stay exact if and only if the list has the sum of the old one |
| `TransactionBuilder.FindIndex` | silubiumcore-lib/lib/transaction/transaction.js:1110-1113 | The first output equal to the change |
| `Edits.EditSpends` | silubiumcore-lib/lib/transaction/transaction.js:633-655 | Each edit leaves exactly the outpoints spent that it should, in order but for a sort, and none twice |
| `Edits.NothingIsSpentTwice` | silubiumcore-lib/lib/transaction/transaction.js:633-655 | Over every run of edits no outpoint is spent twice |
| `Edits.SettingsAreTheLast` | silubiumcore-lib/lib/transaction/transaction.js:760-798 | After every run fee, rate and change script are those set last |
| `Sizes.EstimateAgainstPrint` | silubiumcore-lib/lib/transaction/transaction.js:1017-1026 | Byte for byte: estimated size less printed size is the room for the two counts, plus what input scripts stay under their kind's size, less outpoint, script length and sequence number of every input, which the estimate leaves out; for output scripts up to 252 bytes |
| `Sizes.EstimateCovers` | silubiumcore-lib/lib/transaction/transaction.js:1017-1026 | So the print never takes more than the estimate plus that part of each input, if no input script exceeds its kind's size |
| `Sizes.PublicKeyHashInFits` | silubiumcore-lib/lib/transaction/input/publickeyhash.js:89-93 | A signature and a key stay within the size of their kind if and only if they take at most 105 bytes together |
| `Sizes.PublicKeyInFits` | silubiumcore-lib/lib/transaction/input/publickey.js:83-87 | A signature alone if and only if it takes at most 72 |
| `Sizes.MultisigInFits` | silubiumcore-lib/lib/transaction/input/multisig.js:203-209 | Up to the threshold of signatures of at most 72 bytes stay within the size of a bare multisig input; that many of 73 bytes exceed it |
| `Sizes.ScriptHashMultisigInFits` | silubiumcore-lib/lib/transaction/input/multisigscripthash.js:156-164 | Behind a script hash all do, if the keys are compressed, and the longest take all there is |
| `Sizes.SlotsFit` | silubiumcore-lib/lib/transaction/input/multisigscripthash.js:96-104 | So does whatever script the slots of such an input print |
| `Sizes.SignatureTakes73Iff` | silubiumcore-lib/lib/crypto/signature.js:167-186 | A signature with its type takes 73 bytes if and only if r and s both have their top bit set, and never more |
| `Sizes.AddressScripts` | silubiumcore-lib/lib/script/script.js:785-843 | The scripts of addresses read back as the two outputs whose spending is characterised |
| `MerkleTree.GetMerkleTree` | silubiumcore-lib/lib/block/block.js:205-220 | The loops with moving offsets fill the array of all levels; an empty block gives the null hash |
| `MerkleTree.FlatLevels` | silubiumcore-lib/lib/block/block.js:205-220 | Level h of the tree is a stretch of the array, behind the levels below it |
| `MerkleTree.FlatLength` | silubiumcore-lib/lib/block/block.js:205-220 | The array ends with the single node of the top level |
| `MerkleTree.LevelWidth` | silubiumcore-lib/lib/block/merkleblock.js:202-204 | Level h has the width of height h |
| `MerkleTree.LevelNode` | silubiumcore-lib/lib/block/block.js:205-220 | The nodes of a level are those of the recursive tree with odd tails paired with themselves |
| `MerkleTree.WidthIsCeiling` | silubiumcore-lib/lib/block/merkleblock.js:202-204 | The width is n / 2^h rounded up |
| `MerkleTree.FlatEndsInRoot` | silubiumcore-lib/lib/block/block.js:226-229 | The last entry is the root of the recursive tree |
| `MerkleTree.GetMerkleRoot` | silubiumcore-lib/lib/block/block.js:226-229 | The root |
| `MerkleTree.PushLevel` | silubiumcore-lib/lib/block/block.js:211-215 | Appends the level above the one that ends the array |
| `PartialTree.WidthIsExact` | silubiumcore-lib/lib/block/merkleblock.js:202-204 | In 32-bit arithmetic the width is exact for up to 2^30 transactions |
| `PartialTree.HeightIsExact` | silubiumcore-lib/lib/block/merkleblock.js:211-217 | The height found is the number of levels above the leaves |
| `PartialTree.PartialTreeComplete` | silubiumcore-lib/lib/block/merkleblock.js:129-194 | For every transaction list and every subset, flags and hashes built as section "Partial Merkle branch format" of BIP 37 prescribes are accepted against the root, and the traversal collects exactly the matched leaves in order |
| `PartialTree.PartialTreeSound` | silubiumcore-lib/lib/block/merkleblock.js:129-194 | With the true transaction count and hashes of 32 bytes, if a message is accepted against a block's root, positions strictly increase, every collected hash is the leaf at its position and every hash of the message is a node of the block's tree, or two different strings hashed by tree and traversal collide |
| `PartialTree.AppendedHashIsRejected` | silubiumcore-lib/lib/block/merkleblock.js:143-148 | For every root and every hash function: a message that is accepted is rejected with one more hash appended |
| `PartialTree.TooManyHashesAreRejected` | silubiumcore-lib/lib/block/merkleblock.js:132-141 | More hashes than transactions or than flag bits are rejected, whatever the traversal would do |
| `PartialTree.ShortHashDeceives` | silubiumcore-lib/lib/block/merkleblock.js:129-151 | Why 32 bytes: for every block of two transactions, a message with a byte moved from its first hash to its second is accepted, nothing collides, and what is collected is no leaf |
| `PartialTree.HasTransactionSound` | silubiumcore-lib/lib/block/merkleblock.js:224-239 | A transaction the accepted message, with hashes of 32 bytes, is said to contain is in the block, or there is such a collision |
| `PartialTree.HasTransactionComplete` | silubiumcore-lib/lib/block/merkleblock.js:224-239 | A message built for a set of transactions is said to contain exactly those |
| `PartialTree.FoundIncreases` | silubiumcore-lib/lib/block/merkleblock.js:164-194 | Positions of collected leaves strictly increase and stay under the node visited |
| `PartialTree.PackedBit` | silubiumcore-lib/lib/block/merkleblock.js:176 | The bit read back from packed flag bytes is the bit that was packed |
| `PartialTree.AnyIffUnder` | silubiumcore-lib/lib/block/merkleblock.js:164-194 | A node is the parent of a match exactly when a matched leaf lies under it |
| `PartialTree.MerkleBlock.TraverseMerkleTree` | silubiumcore-lib/lib/block/merkleblock.js:164-194 | The recursion over one mutable options object returns, advances and collects as specified, a bit past the end read as 0 |
| `PartialTree.MerkleBlock.TreeHeight` | silubiumcore-lib/lib/block/merkleblock.js:211-217 | The loop's height |
| `PartialTree.MerkleBlock.Valid` | silubiumcore-lib/lib/block/merkleblock.js:129-151 | Accepts, rejects or throws as specified |
| `PartialTree.MerkleBlock.Contains` | silubiumcore-lib/lib/block/merkleblock.js:224-239 | Whether the traversal collects the transaction, or throws |
| `PartialTree.MerkleBlock.Descend` | silubiumcore-lib/lib/block/merkleblock.js:185-192 | Both children in order, the second only where the width allows it; a child without a hash makes the parent throw |
| `PartialTree.MerkleBlock.TakeHash` | silubiumcore-lib/lib/block/merkleblock.js:177-184 | Takes the next hash, collecting it for a matched leaf, or returns null |
| `TipProtocol.StepKeepsInv` | insight-api/services/AddressBalanceService.js:362-481 | Every interleaving of tips, completions, failures and restarts keeps: at most one run, over exactly the heights not yet processed; heights processed without gap or repeat; the stored height at most one ahead; after a run that ended well and started no other, every tip seen is processed |
| `TipProtocol.RunsKeepInv` | insight-api/lib/src20-watcher.js:954-1024 | The same over whole runs |
| `TipProtocol.QuietRunsStop` | insight-api/services/AddressBlocksMinedService.js:114-187 | Without new tips and restarts only so many more events are possible: one per block left and the ends of at most two runs |
| `TipProtocol.FinishedIdleIff` | insight-api/services/AddressBalanceService.js:449-481 | A run that ends well leaves the service idle exactly when no higher tip came since it began, and otherwise goes on to the highest |
| `BalanceIndex.StepKeepsInv` | insight-api/services/AddressBalanceService.js:489-600 | Every step, in any interleaving with chain growth and with answers from the node's cache however old, keeps: each entry is the balance after the blocks its answer took into account, and each address touched up to the stored height has an answer |
| `BalanceIndex.RunsKeepInv` | insight-api/services/AddressBalanceService.js:362-600 | The same over whole runs; and over runs whose answers take the block in hand into account, every entry takes every block up to the stored height into account that touches its address |
| `BalanceIndex.CaughtUpIsExactIff` | insight-api/services/AddressBalanceService.js:489-600 | Over all runs, cached answers included: once the block at the node's height is processed, the table is exact if and only if no address holds a balance from the first block alone and no last answer for an address was taken at a height whose balance is no longer its balance |
| `BalanceIndex.CaughtUpIsExact` | insight-api/services/AddressBalanceService.js:489-600 | Over runs whose answers take the block in hand into account (any later height will do): once the block at the node's height is processed, the table holds exactly the positive balances if and only if no address holds a balance from the first block alone |
| `BalanceIndex.FreshStepCovers` | silubiumcore-node/lib/services/silubiumd.js:665-673 | Each step whose answer takes the block in hand into account keeps every entry covering the blocks up to the stored height that touch its address |
| `BalanceIndex.WrongIsDue` | insight-api/services/AddressBalanceService.js:489-600 | Over the runs of `CaughtUpIsExact`, at any moment: an address whose entry is wrong is touched by a block above the stored height, one already written for the block in hand by a block above that, or holds from the first block alone |
| `BalanceIndex.StaleAnswerIsStored` | silubiumcore-node/lib/services/silubiumd.js:1209-1227 | A run in which a cached answer misses the block in hand: the service is idle and up to date, no balance comes from the first block alone, and the entry is wrong |
| `BalanceIndex.IdleIsCaughtUp` | insight-api/services/AddressBalanceService.js:435-481 | Idle after a good run, with the node's height among the tips: every block is processed |
| `BalanceIndex.GenesisIsMissed` | insight-api/services/AddressBalanceService.js:370-372 | A chain of one block: the service is idle and up to date, and the address it pays is not in the table |
| `BalanceIndex.UntouchedKeepsBalance` | insight-api/services/AddressBalanceService.js:507-535 | A block changes the balances of the addresses it mentions and of no others |
| `BalanceIndex.AddressBalanceService.OnTip` | insight-api/services/AddressBalanceService.js:435-447 | Records the highest tip and starts a run unless one is under way |
| `BalanceIndex.AddressBalanceService.ProcessLastBlocks` | insight-api/services/AddressBalanceService.js:362-372 | A run over the heights above `lastCheckedBlock`, in order |
| `BalanceIndex.AddressBalanceService.EndRun` | insight-api/services/AddressBalanceService.js:449-481 | Clears the flag and, after a good run, starts another for a tip that came since |
| `BalanceIndex.AddressBalanceService.WriteBalance` | insight-api/services/AddressBalanceService.js:553-580 | Upserts a positive balance, removes any other, and goes on or fails as the callback is told |
| `BalanceIndex.AddressBalanceService.RecordBlock` | insight-api/services/AddressBalanceService.js:375-388 | Stores the height and moves on, or fails with the height stored |
| `BalanceIndex.CollectAddresses` | insight-api/services/AddressBalanceService.js:499-539 | Each address of the block once, in order of mention |
| `BalanceIndex.AddressBalanceService.OnBlock` | insight-api/services/AddressBalanceService.js:491-551 | Starts on the addresses of the block |
| `BalanceIndex.AddressBalanceService.OnBalance` | insight-api/services/AddressBalanceService.js:551-564 | Keeps the balance told, of the chain now or of any earlier one, until it is written |
| `BalanceIndex.AddressBalanceService.OnFailure` | insight-api/services/AddressBalanceService.js:390-396 | The run ends, the flag is cleared, nothing else is undone |
| `BalanceIndex.AddressBalanceService.OnCached` | insight-api/services/AddressBalanceService.js:398-401 | The run ends well |
| `MinedCounter.CountersOverRuns` | insight-api/services/AddressBlocksMinedService.js:195-278 | After every interleaving a counter equals the blocks mined up to the stored height plus its extra increments, which `CountIsExactIff` reads off the events |
| `MinedCounter.CountIsExactIff` | insight-api/services/AddressBlocksMinedService.js:195-278 | A counter is never too low, and it is exact if and only if in the run no increment for a block of the address repeats one already stored or is followed by a failure or a restart before its height is stored |
| `MinedCounter.ExtraOfRun` | insight-api/services/AddressBlocksMinedService.js:195-278 | Over a run from any reachable state the extra increments of an address never go down, and stay the same if and only if no event of the run is of that kind |
| `MinedCounter.RetryCountsTwice` | insight-api/services/AddressBlocksMinedService.js:256-277 | A failure between increment and stored height: one block counted twice |
| `ServiceOrder.GetServiceOrder` | silubiumcore-node/lib/node.js:132-170 | On acyclic dependencies an order exists if and only if every dependency is a service; it lists every service once, its dependencies before it |
| `ServiceOrder.ServiceStack.AddToStack` | silubiumcore-node/lib/node.js:149-166 | The depth-first recursion keeps the stack ordered and only extends it |
| `ServiceOrder.ChainsRunBackwards` | silubiumcore-node/lib/node.js:149-166 | Each service comes after all it needs, directly or through others |
| `ServiceOrder.StopVisitsDependentsFirst` | silubiumcore-node/lib/node.js:285-306 | Stopping visits every dependent before anything it needs |

## Left out

- Elliptic curves, hashing, base58, key derivation: uninterpreted parameters.
- Signing and `normalizeSignatures`: a signature is offered to a slot as a value; `isValidSignature` storing the hash type
  in the caller's signature object is not modelled.
- Public keys are their bytes; a key object that parses to another encoding of the same point is not modelled.
- Interpreter error strings: a step, an evaluation or a verification has its result, not its `errstr`.
- Chunks without an opcode number, and signatures of 4 GiB or more, which no parsed script and no run contains.
- In the P2SH part of `verify` the copied stack and the interpreter's stack are one array; the model reads the one it set.
- Matching.MultisigRemovesItsArguments: says what goes and what stays; which verdict comes is `Matching.GreedyIffAssignable`.
- ScriptNum.NumberToBuffer: asks for magnitudes with bit 31 clear, because for the others the loop does not end, which
  `ScriptNum.NumberToBufferDiverges` proves.
- ServiceOrder.GetServiceOrder: asks for acyclic dependencies; on a cycle the recursion of the code does not end.
- ServiceOrder.ServiceStack.AddToStack: the same.
- Varints above 2^53, where JavaScript numbers are no longer exact, are refused by the model's reader as by the code's.
- The JSON forms of transactions, blocks and signatures, and dispatch on argument types.
- `toHashBuffer`, locking by date, replace-by-fee, `Transaction.verify`, dust and missing-signature errors.
- Inputs of unknown script type in the builder: clearing their signatures throws, so no edit completes once a change address
  is set; and inputs added without information on what they spend, whose sum throws.
- TransactionBuilder.Transaction.SortInputsTo: that sorting by outpoint or by amount orders the list is not proved.
- TransactionBuilder.Transaction.NewOutputOrder: finds the change by its script and amount, not by the inner fields lodash
  compares; the one found is equal to the change either way.
- The `disableLargeFees` and `disableSmallFees` options of serialisation.
- Clearing signatures when an output changes is left to the inputs and not modelled in the builder.
- The byte form of merkle block messages, `getTargetDifficulty`, proof of work and timestamps.
- Balances are whole satoshis; the division by 10^8 and rounding before a balance is stored are left out. A write that
  lands after its failure was reported, or after a restart, is left out too.
- The caches of the balance index and the fields its queries read: one event stands for rebuilding them.
- Chain reorganisations: the indexers do not handle them, and the chain here only grows.
- The token watcher beyond its tip protocol, which is the one of `TipProtocol` without the stage that rebuilds caches; the
  two services whose tip loop differs.
- Services named like a property every JavaScript object has, and starting services beyond their order.
