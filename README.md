# Algorand application test client: credential loader and call parameters

This project models the two pieces of logic that the repository's Go code
implements itself. Everything else it does (compiling TEAL, building and
signing transactions, ABI encoding, atomic-group execution, confirmation
polling) happens inside calls to the go-algorand-sdk and is not modelled.

1. **The credential loader `loadAccount`** (main.go). It reads a text file
   line by line. A line that begins exactly with `Dirección:` sets the
   address. A line that begins exactly with `Mnemónico:` sets the mnemonic.
   The value is the rest of the line with surrounding white space trimmed,
   and a later matching line overwrites an earlier one. After the scan the
   loader rejects the file if either value is empty. Otherwise it turns the
   mnemonic into a private key and the key into an address, and it accepts
   only if that address prints as the recorded one. Every error exit returns
   the zero account.
   - `SdkTypes` (sdktypes.dfy) holds the SDK types both parts use:
     `types.Address`, `crypto.Account` and their zero values.
   - `GoStrings` (gostrings.dfy) models `strings.HasPrefix`,
     `strings.TrimPrefix` and `strings.TrimSpace`, with white space as
     `unicode.IsSpace` defines it.
   - `Credentials` (credentials.dfy) holds the scan and the validation.
     `LoadAccount` is a method whose loop overwrites two local strings, as
     the Go loop does. Its invariant ties them to the pure function
     `Scanned`, and its result is `Validate` of what `Scanned` collects.
     The three SDK calls are the fields of an `Sdk` value. So every property
     holds whatever those calls return, failures included.
2. **The call-parameter records of application/test.go** (application.dfy).
   `AppCreate` builds the global and local `StateSchema` from four counts,
   all zero. `AppCall` fills a base `AddMethodCallParams` with the app id,
   the caller as sender, the suggested params, `NoOp` and a signer for the
   caller. `combine` returns a copy with the method, its arguments and its
   box references replaced. These are value records and pure functions.

`loadAccount` has five distinct error exits (main.go:21, 43, 49, 55, 60),
and `LoadError` keeps them apart. Nothing in this code checks a signing key
against the sender; the only key check is the derived-address comparison at
main.go:59.

## Model

| member | source | states |
|---|---|---|
| SdkTypes.ZeroAddress | main.go:21-61 | the zero `types.Address` is 32 zero bytes |
| SdkTypes.ZeroAccount | main.go:21-61 | `crypto.Account{}`, returned by every error exit, has nil public and private keys and the all-zero address |
| GoStrings.IsSpace | main.go:35-37 | white space is Go's `unicode.IsSpace` set; below U+0100 it is exactly tab, line feed, vertical tab, form feed, carriage return, space, U+0085 and U+00A0 |
| GoStrings.HasPrefix | main.go:34-36 | the line begins with the prefix: the prefix is no longer than the line and agrees with it character by character, accent and case included |
| GoStrings.TrimPrefix | main.go:35-37 | when the line begins with the prefix, prefix + result is the line; otherwise the line comes back unchanged |
| GoStrings.TrimSpace | main.go:35-37 | the result is one contiguous slice of the input, so inner white space is kept; only white space lies before and after it; it neither begins nor ends with white space |
| GoStrings.TrimSpacePadded | main.go:35-37 | trimming any white-space padding around a value with no white space at its ends returns exactly that value, so TrimSpace is determined by what it keeps |
| GoStrings.TrimSpaceIdempotent | main.go:35-37 | trimming an extracted value again changes nothing |
| Credentials.ScanLine | main.go:31-38 | a `Dirección:` line replaces only the address and a `Mnemónico:` line only the mnemonic, each with the trimmed rest of the line; any other line leaves both values unchanged |
| Credentials.Scanned | main.go:26-39 | the two values after applying ScanLine to each line in order, starting from two empty strings; neither collected value begins or ends with white space |
| Credentials.PrefixesExclusive | main.go:34-36 | no line begins with both prefixes, so the if/else-if order decides nothing |
| Credentials.ScannedSnoc | main.go:30-39 | scanning one more line applies the one-line update to the values collected so far |
| Credentials.LastAddressLineWins | main.go:30-35 | the address is the value of the last `Dirección:` line, even when that value is empty and erases an earlier one |
| Credentials.NoAddressLine | main.go:26-39 | with no `Dirección:` line the address stays empty |
| Credentials.LastMnemonicLineWins | main.go:30-38 | the mnemonic is the value of the last `Mnemónico:` line, even when that value is empty |
| Credentials.NoMnemonicLine | main.go:27-39 | with no `Mnemónico:` line the mnemonic stays empty |
| Credentials.IgnoredLineHasNoEffect | main.go:30-39 | a line with neither prefix can be removed from anywhere in the file without changing the collected values |
| Credentials.Validate | main.go:42-69 | every error returns the zero account; the missing-data error occurs exactly when either value is empty; the mnemonic error exactly when the key conversion fails; the derivation error exactly when address derivation fails; the mismatch error exactly when the derived address prints differently from the recorded one; on success the account holds the derived key and address and a nil public key, and that address prints as the recorded one |
| Credentials.MismatchRejected | main.go:59-61 | a derived address that prints differently from the recorded text gives the mismatch error and the zero account |
| Credentials.ValidAccepted | main.go:63-69 | when every check passes the result is exactly the account made of the derived key and derived address, with a nil public key (the literal never sets it) and a nil error |
| Credentials.MissingDataNeverDerives | main.go:41-47 | with a value missing the outcome is the same for every SDK, so no key or address derivation is attempted |
| Credentials.EmptyLaterAddressErases | main.go:34-44 | a later `Dirección:` line with nothing after the prefix erases an earlier address, so the file is rejected as incomplete |
| Credentials.LoadAccount | main.go:17-70 | a file that cannot be opened gives the open error and the zero account; otherwise the line loop computes exactly `Scanned` of the lines and the result is `Validate` of those values; any error comes with the zero account, and a success's address prints as the recorded address |
| Application.DeclareSchemas | application/test.go:28-30 | the global schema takes the global int and byte counts and the local schema the local ones, not swapped |
| Application.AppCreateSchemas | application/test.go:21-30 | AppCreate declares both schemas with zero integer and zero byte-slice slots |
| Application.AppCreateSchemasHaveZeroCapacity | application/test.go:21-30 | both schemas AppCreate declares have zero total capacity |
| Application.ZeroCallParams | application/test.go:145-151 | `AddMethodCallParams{}`: every field the AppCall literal leaves unset holds Go's zero value, including an all-zero 32-byte lease, the zero rekey address and a nil signer |
| Application.Combine | application/test.go:180-185 | the result carries the given method, the given arguments and the given boxes in order (none given: empty); every other field equals the input record's |
| Application.CombineDetermined | application/test.go:180-185 | any record meeting Combine's contract is Combine's result, so that contract pins down every field |
| Application.CombineLastWins | application/test.go:180-185 | combining twice equals combining once with the later method, arguments and boxes |
| Application.CombineOwnFieldsIsIdentity | application/test.go:180-185 | combining a record with its own method, arguments and boxes returns it unchanged |
| Application.CombineKeepsSigner | application/test.go:180-185 | Combine's result has a signer for its sender exactly when its input did |
| Application.BaseCallParams | application/test.go:144-151 | the base record carries the app id, the caller's address as sender, the suggested params, NoOp and a signer for the caller; every other field keeps its zero value; the signer signs for the sender |
| Application.HelloCallParams | application/test.go:144-155 | the call AppCall composes names the `hello` method with the single argument "success" and no boxes, for the given app id, sender, params and NoOp, with a signer for the sender; the rest equals the base record |

## Left out

- File opening and line splitting (`os.Open`, `bufio.Scanner`): the file is given as its list of lines, or `None` when it cannot be opened. The scanner's error is never checked, so a read failure or a line over the scanner's 64 KiB token limit silently ends the scan. The model takes the full line list.
- Byte-level strings: Go compares and trims UTF-8 bytes, and the model works on Unicode scalar values. The two agree on valid UTF-8. A file with invalid UTF-8 is not modelled.
- Key and address derivation (`mnemonic.ToPrivateKey`, `crypto.GenerateAddressFromSK`, `types.Address.String`): SDK cryptography, given as arbitrary possibly failing functions in `Sdk`.
- `main`: the process exit on error, the printing, the algod client, and the `GetApplicationByID` lookup are I/O glue.
- Network calls: `MakeClient`, `TealCompile`, `SuggestedParams`, `SendRawTransaction` and `WaitForConfirmation` with its budget of 4 rounds. These are I/O, and the polling loop lives inside the SDK.
- Reading the TEAL and contract files, base64 decoding of compiled programs, `MakeApplicationCreateTx` and `SignTransaction` in `AppCreate`: SDK and standard-library calls that add no logic of the repository's own.
- ABI: the JSON re-marshalling of the contract description, `GetMethodByName` (and `getMethod`, which exits the process when it fails), `AtomicTransactionComposer.AddMethodCall`/`Execute` with 2 wait rounds, and selector and argument encoding. All of this is SDK or standard-library code. `HelloCallParams` takes the looked-up method as a parameter.
- `AddMethodCallParams` and its member types are defined in the SDK. The model rebuilds their fields from the SDK's public definition. Go's `interface{}` arguments are reduced to string, integer and byte-array values. Nil and empty slices are both the empty sequence. The Go field `Method` is named `abiMethod`, because `method` is a Dafny keyword.
- Go's by-value struct passing is not modelled as copying: Dafny datatypes are immutable values, so `Combine` cannot change its caller's record.
