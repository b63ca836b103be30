/** The key schedule of the end-to-end session protocol, as symbolic terms.

    A key pair is one `KeyId`: its public half travels in headers and bundles, its private
    half stays on the device that generated it. Every derivation is a constructor, so two
    derived keys are equal only when they were derived from equal inputs; the one algebraic
    law is that a shared secret does not depend on which side computes it. */
module KeySchedule {

  type KeyId = nat

  /** The X25519 output of two key pairs, an unordered pair. */
  datatype Secret = Secret(low: KeyId, high: KeyId)

  /** What the holder of `privateKey` computes from the other side's `publicKey`. */
  function SharedSecret(privateKey: KeyId, publicKey: KeyId): (s: Secret)
    ensures s.low <= s.high
    ensures {s.low, s.high} == {privateKey, publicKey}
  {
    if privateKey <= publicKey then Secret(privateKey, publicKey) else Secret(publicKey, privateKey)
  }

  /** `NoRoot` is the empty string a session record starts with. */
  datatype RootKey =
    | NoRoot
    | X3dhRoot(segments: seq<Secret>)
    | RatchetRoot(previous: RootKey, secret: Secret)

  datatype ChainKey =
    | ChainStart(root: RootKey, secret: Secret)
    | NextChain(previous: ChainKey)

  datatype MessageKey = MessageKey(chain: ChainKey)

  function KdfRoot(root: RootKey, secret: Secret): (RootKey, ChainKey) {
    (RatchetRoot(root, secret), ChainStart(root, secret))
  }

  function KdfChain(chain: ChainKey): (ChainKey, MessageKey) {
    (NextChain(chain), MessageKey(chain))
  }

  /** The chain key after `n` steps. */
  function ChainAt(chain: ChainKey, n: nat): ChainKey {
    if n == 0 then chain else NextChain(ChainAt(chain, n - 1))
  }

  /** The message key of message number `n` on the chain that starts at `chain`. */
  function KeyAt(chain: ChainKey, n: nat): MessageKey {
    KdfChain(ChainAt(chain, n)).1
  }

  lemma {:induction false} ChainAtCompose(chain: ChainKey, m: nat, n: nat)
    ensures ChainAt(ChainAt(chain, m), n) == ChainAt(chain, m + n)
  {
    if n > 0 {
      ChainAtCompose(chain, m, n - 1);
    }
  }

  /** No two positions of any two chains share a key. */
  lemma {:induction false} MessageKeysDiffer(a: ChainKey, m: nat, b: ChainKey, n: nat)
    requires a.ChainStart? && b.ChainStart?
    ensures KeyAt(a, m) == KeyAt(b, n) <==> a == b && m == n
  {
    if m > 0 && n > 0 {
      MessageKeysDiffer(a, m - 1, b, n - 1);
    }
  }

  /** How many root steps separate a root key from its X3DH (or empty) origin. */
  function RootDepth(root: RootKey): nat {
    if root.RatchetRoot? then 1 + RootDepth(root.previous) else 0
  }
}
