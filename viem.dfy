/** The four functions page.tsx imports from the viem library. Their bodies
    (EIP-55 address checksums, UTF-8 hex encoding, decimal parsing and
    formatting of ether amounts) are not part of this model, so they are kept
    uninterpreted: a `Lib` value bundles one arbitrary total function for each,
    and every definition that uses them takes the bundle as a parameter. Any
    property proved for all `Lib` values therefore holds whatever viem does. */
module Viem {

  /** A hex string as returned by `toHex` and used for transaction hashes. */
  type Hex = string

  datatype Lib = Lib(
    /** `isAddress(s)`: is `s` a well-formed account address. */
    isAddress: string -> bool,
    /** `toHex(message)`: the message's bytes as a `0x…` hex string. */
    toHex: string -> Hex,
    /** `parseEther(text)`: a decimal ether amount in wei. */
    parseEther: string -> int,
    /** `formatEther(wei)`: a wei amount as a decimal ether string. */
    formatEther: nat -> string)
}
