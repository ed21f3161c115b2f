/** Identifiers and signatures in terms of bytes: what the ledger's uninterpreted `Crypto` is made
    of. BLAKE3 is some function from bytes to identifiers and Ed25519 verification some predicate
    (RFC 8032, section 5.1.7); nothing is assumed of either. Conclusions that need an injective hash
    name the two byte strings that would have to collide. */
module Hashing {
  import opened Types
  import opened Codec
  import opened Governance
  import opened LedgerSpec
  import opened Runs

  datatype Primitives = Primitives(
    hash: Bytes -> Hash,
    verify: (Identity, Bytes, Signature) -> bool,
    stateBytes: State -> Bytes)

  function CryptoOf(x: Primitives): Crypto {
    Crypto(
      (body: TaskBody) => x.hash(PutTaskBody(body, [])),
      (stx: SignedTx) => x.verify(stx.author, SigningPayload(stx.author, stx.tx, stx.nonce), stx.sig),
      (stx: SignedTx) => x.hash(PutSignedTx(stx, [])),
      (block: Block) => x.hash(PutBlock(block, [])),
      (s: State) => x.hash(x.stateBytes(s)))
  }

  /** The two byte strings are different and hash to the same identifier. */
  predicate Collides(hash: Bytes -> Hash, m: Bytes, n: Bytes) {
    m != n && hash(m) == hash(n)
  }

  /** Two transactions have one id if and only if they are the same or their encodings collide. */
  lemma TxIdsEqual(x: Primitives, a: SignedTx, b: SignedTx)
    requires SignedTxFits(a) && SignedTxFits(b)
    ensures CryptoOf(x).txId(a) == CryptoOf(x).txId(b)
            <==> a == b || Collides(x.hash, PutSignedTx(a, []), PutSignedTx(b, []))
  {
    PrefixFreeSignedTx(a, b, [], []);
  }

  lemma TaskIdsEqual(x: Primitives, a: TaskBody, b: TaskBody)
    requires TaskBodyFits(a) && TaskBodyFits(b)
    ensures CryptoOf(x).taskId(a) == CryptoOf(x).taskId(b)
            <==> a == b || Collides(x.hash, PutTaskBody(a, []), PutTaskBody(b, []))
  {
    PrefixFreeTaskBody(a, b, [], []);
  }

  lemma BlockHashesEqual(x: Primitives, a: Block, b: Block)
    requires BlockFits(a) && BlockFits(b)
    ensures CryptoOf(x).blockHash(a) == CryptoOf(x).blockHash(b)
            <==> a == b || Collides(x.hash, PutBlock(a, []), PutBlock(b, []))
  {
    PrefixFreeBlock(a, b, [], []);
  }

  /** One signature can be checked against one message only: if the messages two signed transactions
      are checked against are equal, so are author, transaction and nonce. */
  lemma OneMessageOneStatement(a: SignedTx, b: SignedTx)
    requires SignedTxFits(a) && SignedTxFits(b)
    ensures SigningPayload(a.author, a.tx, a.nonce) == SigningPayload(b.author, b.tx, b.nonce)
            <==> a.(sig := b.sig) == b
  {
    if SigningPayload(a.author, a.tx, a.nonce) == SigningPayload(b.author, b.tx, b.nonce) {
      SigningPayloadInjective(a.author, a.tx, a.nonce, b.author, b.tx, b.nonce);
    }
  }

  /** The bytes read as an author, a transaction and a nonce, with nothing left over. */
  predicate ReadsAs(m: Bytes, author: Identity, tx: Tx, nonce: u64) {
    match GetHash(m)
    case None => false
    case Some((a, rest)) =>
      match GetTx(rest)
      case None => false
      case Some((t, end)) => a == author && t == tx && GetU64(end) == Some((nonce, []))
  }

  /** What a signature is checked against: the one message that reads as the author, the transaction and
      the nonce it comes with. */
  lemma VerifiesMessage(x: Primitives, stx: SignedTx, m: Bytes)
    requires ReadsAs(m, stx.author, stx.tx, stx.nonce)
    ensures CryptoOf(x).verifies(stx) <==> x.verify(stx.author, m, stx.sig)
  {
    var (_, rest) := GetHash(m).value;
    var (_, end) := GetTx(rest).value;
    CanonicalHash(m);
    CanonicalTx(rest);
    CanonicalU64(end);
    PayloadPieces(stx.author, stx.tx, stx.nonce);
  }

  /** The three pieces of the message, written one behind the other. */
  lemma PayloadPieces(author: Identity, tx: Tx, nonce: u64)
    ensures SigningPayload(author, tx, nonce) == PutHash(author, PutTx(tx, PutU64(nonce, [])))
  {
    var n := PutU64(nonce, []);
    TxAppend(tx, n);
    HashInFront(author, PutTx(tx, []) + n);
    BytesAppend(PutHash(author, []), PutTx(tx, []), n);
  }

  /** Whatever the ledger accepts was signed by its author: there is a message that reads as author,
      transaction and nonce, and the signature verifies on it under the author's key. */
  lemma AcceptedIsSigned(x: Primitives, p: Params, s: State, stx: SignedTx)
    requires SignedTxFits(stx) && Apply(CryptoOf(x), p, s, stx).Ok?
    ensures exists m :: ReadsAs(m, stx.author, stx.tx, stx.nonce) && x.verify(stx.author, m, stx.sig)
  {
    var n := PutU64(stx.nonce, []);
    var m := SigningPayload(stx.author, stx.tx, stx.nonce);
    SigningPayloadReads(stx.author, stx.tx, stx.nonce);
    TxRoundTrip(stx.tx, n);
    U64RoundTrip(stx.nonce, []);
    assert ReadsAs(m, stx.author, stx.tx, stx.nonce);
    VerifiesMessage(x, stx, m);
  }

  /** An id is the hash of the bytes that read as the value it names. */
  lemma IdsAreHashes(x: Primitives, m: Bytes)
    ensures GetTaskBody(m).Some? && GetTaskBody(m).value.1 == []
            ==> CryptoOf(x).taskId(GetTaskBody(m).value.0) == x.hash(m)
    ensures GetSignedTx(m).Some? && GetSignedTx(m).value.1 == []
            ==> CryptoOf(x).txId(GetSignedTx(m).value.0) == x.hash(m)
    ensures GetBlock(m).Some? && GetBlock(m).value.1 == [] ==> CryptoOf(x).blockHash(GetBlock(m).value.0) == x.hash(m)
  {
    if GetTaskBody(m).Some? {
      CanonicalTaskBody(m);
    }
    if GetSignedTx(m).Some? {
      CanonicalSignedTx(m);
    }
    if GetBlock(m).Some? {
      CanonicalBlock(m);
    }
  }

  /** Two states have one root if and only if their bytes are the same or collide. */
  lemma RootsEqual(x: Primitives, s: State, s': State)
    ensures CryptoOf(x).root(s) == CryptoOf(x).root(s')
            <==> x.stateBytes(s) == x.stateBytes(s') || Collides(x.hash, x.stateBytes(s), x.stateBytes(s'))
  {
  }

  /** Ids of the transactions accepted on one run are pairwise distinct, unless two encodings
      collide. */
  lemma AcceptedIdsDistinct(x: Primitives, p: Params, s: State, actions: seq<Action>, i: nat, j: nat)
    requires i < j < |Accepted(CryptoOf(x), p, s, actions)|
    requires SignedTxFits(Accepted(CryptoOf(x), p, s, actions)[i])
            && SignedTxFits(Accepted(CryptoOf(x), p, s, actions)[j])
    ensures var c := CryptoOf(x);
            var a, b := Accepted(c, p, s, actions)[i], Accepted(c, p, s, actions)[j];
            c.txId(a) != c.txId(b) || Collides(x.hash, PutSignedTx(a, []), PutSignedTx(b, []))
  {
    var c := CryptoOf(x);
    NeverAcceptedTwice(c, p, s, actions, i, j);
    TxIdsEqual(x, Accepted(c, p, s, actions)[i], Accepted(c, p, s, actions)[j]);
  }
}
