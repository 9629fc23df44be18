/**
  The go-algorand-sdk types that both the credential loader and the
  application calls use: `types.Address` and `crypto.Account`, with the
  zero values Go gives them.
 */
module SdkTypes {

  const AddressLength: nat := 32

  /** types.Address: 32 bytes. */
  type Address = a: seq<bv8> | |a| == AddressLength witness seq(32, _ => 0)

  /** The zero address `types.Address{}`. */
  function ZeroAddress(): (a: Address)
    ensures forall i :: 0 <= i < |a| ==> a[i] == 0
  {
    seq(AddressLength, _ => 0)
  }

  /** ed25519.PrivateKey: a byte slice, nil in the zero account. */
  type PrivateKey = seq<bv8>

  /** ed25519.PublicKey: a byte slice; loadAccount never fills it, so it stays nil. */
  type PublicKey = seq<bv8>

  /** crypto.Account */
  datatype Account = Account(publicKey: PublicKey, privateKey: PrivateKey, address: Address)

  /** The zero value `crypto.Account{}`: nil keys and the all-zero address. */
  function ZeroAccount(): (a: Account)
    ensures a.publicKey == [] && a.privateKey == []
    ensures forall i :: 0 <= i < |a.address| ==> a.address[i] == 0
  {
    Account([], [], ZeroAddress())
  }
}
