/** Records as the keyset command keeps and receives them. */
module Records {
  import opened Wrappers
  import opened Names

  const DNSKEY_TYPE: nat := 48

  datatype PublicKey = PublicKey(algorithm: nat, key: nat)

  /** `expiration` is the 32-bit number of seconds at which a signature ends. */
  datatype RData =
    | DnskeyData(key: PublicKey)
    | CdnskeyData(key: PublicKey)
    | RrsigData(covered: nat, expiration: nat, signature: nat)
    | OtherData(code: nat)

  datatype Rr = Rr(owner: Name, data: RData, ttl: nat)

  type Rrset = seq<Rr>

  datatype DsRr = DsRr(owner: Name, algorithm: nat, digestType: nat, digest: nat, ttl: nat)

  /** The digest of a key, by digest type, and the types there are digests for. */
  datatype Digest = Digest(types: set<nat>, of: (PublicKey, nat) -> nat)

  /** What a server said, or that asking it failed. */
  datatype Answer<T> = Failed | Answered(records: seq<T>)

  /** What all servers of a zone said, unless their addresses could not be found out. */
  type Answers<T> = Option<seq<Answer<T>>>
}
