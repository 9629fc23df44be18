/**
  The credential loader of main.go: `loadAccount` reads a text file line by
  line, keeps the value of the last `Dirección:` line and of the last
  `Mnemónico:` line, and accepts the pair only when the address derived from
  the mnemonic prints as the recorded address.

  The file arrives as its list of lines (`None` when it cannot be opened).
  The three SDK calls the loader makes (`mnemonic.ToPrivateKey`,
  `crypto.GenerateAddressFromSK` and `types.Address.String`) are given as the
  functions of an `Sdk` value, so every property below holds whatever they do.
 */
module Credentials {
  import opened Wrappers
  import opened GoStrings
  import opened SdkTypes

  const AddressPrefix: string := "Dirección:"
  const MnemonicPrefix: string := "Mnemónico:"

  /** The SDK functions the loader calls; `None` is a call that returned an error. */
  datatype Sdk = Sdk(
    toPrivateKey: string -> Option<PrivateKey>,
    generateAddressFromSK: PrivateKey -> Option<Address>,
    addressString: Address -> string)

  /** One constructor per error exit of loadAccount, in source order. */
  datatype LoadError =
    | OpenFailed
    | MissingData
    | MnemonicInvalid
    | AddressDerivationFailed
    | AddressMismatch

  /** The pair (account, error) that loadAccount returns; `None` is a nil error. */
  datatype Loaded = Loaded(account: Account, err: Option<LoadError>)

  function Failed(e: LoadError): Loaded {
    Loaded(ZeroAccount(), Some(e))
  }

  /** The two values the scan collects. */
  datatype Fields = Fields(address: string, mnemonic: string)

  /** The value a line with `prefix` supplies: the rest of the line, trimmed. */
  function ValueAfter(line: string, prefix: string): string {
    TrimSpace(TrimPrefix(line, prefix))
  }

  /** A line that begins with neither prefix. */
  predicate Ignored(line: string) {
    !HasPrefix(line, AddressPrefix) && !HasPrefix(line, MnemonicPrefix)
  }

  /** What one line does to the collected values. */
  function ScanLine(f: Fields, line: string): (g: Fields)
    ensures HasPrefix(line, AddressPrefix) ==>
      g == f.(address := ValueAfter(line, AddressPrefix))
    ensures HasPrefix(line, MnemonicPrefix) ==>
      g == f.(mnemonic := ValueAfter(line, MnemonicPrefix))
    ensures Ignored(line) ==> g == f
  {
    PrefixesExclusive(line);
    if HasPrefix(line, AddressPrefix) then
      f.(address := ValueAfter(line, AddressPrefix))
    else if HasPrefix(line, MnemonicPrefix) then
      f.(mnemonic := ValueAfter(line, MnemonicPrefix))
    else
      f
  }

  /** The values after scanning `lines` in order from two empty strings. */
  function Scanned(lines: seq<string>): (r: Fields)
    ensures Trimmed(r.address) && Trimmed(r.mnemonic)
  {
    if lines == [] then Fields("", "")
    else ScanLine(Scanned(lines[..|lines| - 1]), lines[|lines| - 1])
  }

  /** No line begins with both prefixes, so the order of the two tests does not matter. */
  lemma PrefixesExclusive(line: string)
    ensures !(HasPrefix(line, AddressPrefix) && HasPrefix(line, MnemonicPrefix))
  {
    assert AddressPrefix[0] == 'D' && MnemonicPrefix[0] == 'M';
  }

  /** The address comes from the last `Dirección:` line, even when its value is empty. */
  lemma {:induction false} LastAddressLineWins(lines: seq<string>, i: nat)
    requires i < |lines| && HasPrefix(lines[i], AddressPrefix)
    requires forall j :: i < j < |lines| ==> !HasPrefix(lines[j], AddressPrefix)
    ensures Scanned(lines).address == ValueAfter(lines[i], AddressPrefix)
  {
    var init := lines[..|lines| - 1];
    if i < |lines| - 1 {
      LastAddressLineWins(init, i);
    }
  }

  /** Without a `Dirección:` line the address stays empty. */
  lemma {:induction false} NoAddressLine(lines: seq<string>)
    requires forall j :: 0 <= j < |lines| ==> !HasPrefix(lines[j], AddressPrefix)
    ensures Scanned(lines).address == ""
  {
    if lines != [] {
      NoAddressLine(lines[..|lines| - 1]);
    }
  }

  /** The mnemonic comes from the last `Mnemónico:` line, even when its value is empty. */
  lemma {:induction false} LastMnemonicLineWins(lines: seq<string>, i: nat)
    requires i < |lines| && HasPrefix(lines[i], MnemonicPrefix)
    requires forall j :: i < j < |lines| ==> !HasPrefix(lines[j], MnemonicPrefix)
    ensures Scanned(lines).mnemonic == ValueAfter(lines[i], MnemonicPrefix)
  {
    var init := lines[..|lines| - 1];
    if i < |lines| - 1 {
      LastMnemonicLineWins(init, i);
    }
  }

  /** Without a `Mnemónico:` line the mnemonic stays empty. */
  lemma {:induction false} NoMnemonicLine(lines: seq<string>)
    requires forall j :: 0 <= j < |lines| ==> !HasPrefix(lines[j], MnemonicPrefix)
    ensures Scanned(lines).mnemonic == ""
  {
    if lines != [] {
      NoMnemonicLine(lines[..|lines| - 1]);
    }
  }

  /** Scanning one more line applies ScanLine to what was collected before it. */
  lemma ScannedSnoc(lines: seq<string>, line: string)
    ensures Scanned(lines + [line]) == ScanLine(Scanned(lines), line)
  {
    assert (lines + [line])[..|lines|] == lines;
  }

  /** A line with neither prefix can be removed from anywhere in the file without effect. */
  lemma {:induction false} IgnoredLineHasNoEffect(before: seq<string>, line: string, after: seq<string>)
    requires Ignored(line)
    ensures Scanned(before + [line] + after) == Scanned(before + after)
  {
    if after == [] {
      assert before + [line] + after == before + [line];
      assert before + after == before;
      ScannedSnoc(before, line);
    } else {
      var init := after[..|after| - 1];
      var last := after[|after| - 1];
      assert after == init + [last];
      assert before + [line] + after == (before + [line] + init) + [last];
      assert before + after == (before + init) + [last];
      ScannedSnoc(before + [line] + init, last);
      ScannedSnoc(before + init, last);
      IgnoredLineHasNoEffect(before, line, init);
    }
  }

  /**
    The checks that follow the scan: both values present, the mnemonic turns
    into a key, the key into an address, and that address prints as the
    recorded one. The first failing check decides the error.
   */
  function Validate(sdk: Sdk, f: Fields): (r: Loaded)
    ensures r.err.Some? ==> r.account == ZeroAccount()
    ensures r.err != Some(OpenFailed)
    ensures r.err == Some(MissingData) <==> f.address == "" || f.mnemonic == ""
    ensures r.err == Some(MnemonicInvalid) <==>
      f.address != "" && f.mnemonic != "" && sdk.toPrivateKey(f.mnemonic).None?
    ensures r.err == Some(AddressDerivationFailed) <==>
      f.address != "" && f.mnemonic != "" && sdk.toPrivateKey(f.mnemonic).Some?
      && sdk.generateAddressFromSK(sdk.toPrivateKey(f.mnemonic).value).None?
    ensures r.err == Some(AddressMismatch) <==>
      f.address != "" && f.mnemonic != "" && sdk.toPrivateKey(f.mnemonic).Some?
      && sdk.generateAddressFromSK(sdk.toPrivateKey(f.mnemonic).value).Some?
      && sdk.addressString(sdk.generateAddressFromSK(sdk.toPrivateKey(f.mnemonic).value).value) != f.address
    ensures r.err.None? ==>
      r.account.publicKey == []
      && sdk.toPrivateKey(f.mnemonic) == Some(r.account.privateKey)
      && sdk.generateAddressFromSK(r.account.privateKey) == Some(r.account.address)
      && sdk.addressString(r.account.address) == f.address
  {
    if f.address == "" || f.mnemonic == "" then Failed(MissingData)
    else match sdk.toPrivateKey(f.mnemonic)
      case None => Failed(MnemonicInvalid)
      case Some(privateKey) =>
        match sdk.generateAddressFromSK(privateKey)
        case None => Failed(AddressDerivationFailed)
        case Some(restored) =>
          if sdk.addressString(restored) != f.address then Failed(AddressMismatch)
          else Loaded(Account([], privateKey, restored), None)
  }

  /** A derived address that prints differently from the recorded one is rejected. */
  lemma MismatchRejected(sdk: Sdk, f: Fields, privateKey: PrivateKey, restored: Address)
    requires f.address != "" && f.mnemonic != ""
    requires sdk.toPrivateKey(f.mnemonic) == Some(privateKey)
    requires sdk.generateAddressFromSK(privateKey) == Some(restored)
    requires sdk.addressString(restored) != f.address
    ensures Validate(sdk, f) == Failed(AddressMismatch)
  {
  }

  /** When every check passes the account is exactly the derived key and address. */
  lemma ValidAccepted(sdk: Sdk, f: Fields, privateKey: PrivateKey, restored: Address)
    requires f.address != "" && f.mnemonic != ""
    requires sdk.toPrivateKey(f.mnemonic) == Some(privateKey)
    requires sdk.generateAddressFromSK(privateKey) == Some(restored)
    requires sdk.addressString(restored) == f.address
    ensures Validate(sdk, f) == Loaded(Account([], privateKey, restored), None)
  {
  }

  /** With a value missing no SDK function is consulted: the outcome is the same for every SDK. */
  lemma MissingDataNeverDerives(sdk1: Sdk, sdk2: Sdk, f: Fields)
    requires f.address == "" || f.mnemonic == ""
    ensures Validate(sdk1, f) == Validate(sdk2, f) == Failed(MissingData)
  {
  }

  /**
    loadAccount: scan the lines, keeping the last value of each field, then
    validate. The result is `Validate` of what `Scanned` collects.
   */
  method LoadAccount(sdk: Sdk, file: Option<seq<string>>) returns (account: Account, err: Option<LoadError>)
    ensures file.None? ==> account == ZeroAccount() && err == Some(OpenFailed)
    ensures file.Some? ==> Loaded(account, err) == Validate(sdk, Scanned(file.value))
    ensures err.Some? ==> account == ZeroAccount()
    ensures err.None? ==> file.Some? && sdk.addressString(account.address) == Scanned(file.value).address
  {
    if file.None? {
      return ZeroAccount(), Some(OpenFailed);
    }
    var lines := file.value;
    var address := "";
    var mn := "";
    var i := 0;
    while i < |lines|
      invariant i <= |lines|
      invariant Fields(address, mn) == Scanned(lines[..i])
    {
      var line := lines[i];
      if HasPrefix(line, AddressPrefix) {
        address := TrimSpace(TrimPrefix(line, AddressPrefix));
      } else if HasPrefix(line, MnemonicPrefix) {
        mn := TrimSpace(TrimPrefix(line, MnemonicPrefix));
      }
      assert lines[..i + 1][..i] == lines[..i];
      i := i + 1;
    }
    assert lines[..i] == lines;

    if address == "" || mn == "" {
      return ZeroAccount(), Some(MissingData);
    }
    var privateKey := sdk.toPrivateKey(mn);
    if privateKey.None? {
      return ZeroAccount(), Some(MnemonicInvalid);
    }
    var restored := sdk.generateAddressFromSK(privateKey.value);
    if restored.None? {
      return ZeroAccount(), Some(AddressDerivationFailed);
    }
    if sdk.addressString(restored.value) != address {
      return ZeroAccount(), Some(AddressMismatch);
    }
    account := Account([], privateKey.value, restored.value);
    err := None;
  }

  /**
    A later `Dirección:` line with nothing after the prefix erases an earlier
    address, so the file is rejected as incomplete without any derivation.
   */
  lemma {:induction false} EmptyLaterAddressErases(sdk: Sdk, before: seq<string>, after: seq<string>)
    requires forall j :: 0 <= j < |after| ==> !HasPrefix(after[j], AddressPrefix)
    ensures Validate(sdk, Scanned(before + [AddressPrefix + " "] + after)) == Failed(MissingData)
  {
    var lines := before + [AddressPrefix + " "] + after;
    var line := AddressPrefix + " ";
    assert lines[|before|] == line;
    assert line[..|AddressPrefix|] == AddressPrefix;
    assert TrimPrefix(line, AddressPrefix) == " ";
    assert " " == " " + [] + [];
    TrimSpacePadded(" ", [], []);
    LastAddressLineWins(lines, |before|);
  }
}
