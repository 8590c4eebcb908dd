/**
 * The per-user seed record of the provably-fair dice game (class Seed in
 * OLD_models.py) and the post-save signal that initialises it for a new user.
 *
 * The stored `serverSeed` is always the ENCRYPTED server seed; the plaintext
 * only exists transiently while rotating and when it is revealed. The
 * commitment shown to the player, `hashedServerSeedForUser`, is the hash of
 * the plaintext. Database saves are plain field assignments here.
 */
module Seeds {
  import opened Wrappers
  import opened Encryption

  const DefaultClientSeed: string := "Seed"
  const DefaultServerSeed: string := "ServerSeed"
  const DefaultCommitment: string := "HASH"
  const HiddenLabel: string := "Hidden"

  class Seed {
    var clientSeed: string
    var serverSeed: string                 // encrypted at rest
    var hashedServerSeedForUser: string    // the published commitment
    var visible: bool                      // revealed to the player already
    var nonce: nat

    /** The commitment is the hash of what the stored server seed decrypts to. */
    ghost predicate Committed(p: Primitives, key: string)
      reads this
    {
      hashedServerSeedForUser == p.hash(p.decrypt(serverSeed, key))
    }

    /** A row created with the model's field defaults. */
    constructor ()
      ensures clientSeed == DefaultClientSeed && serverSeed == DefaultServerSeed
      ensures hashedServerSeedForUser == DefaultCommitment
      ensures !visible && nonce == 0
    {
      clientSeed := DefaultClientSeed;
      serverSeed := DefaultServerSeed;
      hashedServerSeedForUser := DefaultCommitment;
      visible := false;
      nonce := 0;
    }

    /** `__str__`: a hidden seed shows nothing of its server seed. */
    function ToString(): (r: string)
      reads this
      ensures !visible ==> r == HiddenLabel
      ensures visible ==> r == serverSeed
    {
      if visible then serverSeed else HiddenLabel
    }

    method IncrementNonce()
      modifies this
      ensures nonce == old(nonce) + 1
      ensures clientSeed == old(clientSeed) && serverSeed == old(serverSeed)
      ensures hashedServerSeedForUser == old(hashedServerSeedForUser)
      ensures visible == old(visible)
    {
      nonce := nonce + 1;
    }

    /**
     * Rotates the server seed: `newSs` when the caller supplies one, otherwise
     * `freshToken` (the value token_hex(32) would produce). The plaintext is
     * hashed into the commitment, stored encrypted under `key`, and the seed
     * becomes hidden with its nonce reset.
     */
    method ModifyServerSeed(newSs: Option<string>, freshToken: string, key: string, p: Primitives)
      returns (ghost plain: string)
      modifies this
      ensures plain == (if newSs.Some? then newSs.value else freshToken)
      ensures hashedServerSeedForUser == p.hash(plain)
      ensures serverSeed == p.encrypt(plain, key)
      ensures !visible && nonce == 0
      ensures clientSeed == old(clientSeed)
      ensures p.DecryptInvertsEncrypt() ==> Committed(p, key)
    {
      if newSs.Some? {
        serverSeed := newSs.value;
      } else {
        serverSeed := freshToken;
      }
      plain := serverSeed;
      hashedServerSeedForUser := p.hash(serverSeed);
      serverSeed := p.encrypt(serverSeed, key);
      visible := false;
      nonce := 0;
    }

    method ModifyClientSeed(newCs: string)
      modifies this
      ensures clientSeed == newCs
      ensures serverSeed == old(serverSeed) && hashedServerSeedForUser == old(hashedServerSeedForUser)
      ensures visible == old(visible) && nonce == old(nonce)
    {
      clientSeed := newCs;
    }

    /** The plaintext behind the stored server seed. */
    function DecryptServerSeed(key: string, p: Primitives): (r: string)
      reads this
      ensures p.DecryptInvertsEncrypt() ==>
                forall x :: serverSeed == p.encrypt(x, key) ==> r == x
      ensures Committed(p, key) ==> p.hash(r) == hashedServerSeedForUser
    {
      p.decrypt(serverSeed, key)
    }

    /**
     * Hands the player the plaintext server seed and marks it revealed; the
     * plaintext hashes to the commitment published before any roll used it.
     */
    method RevealServerSeed(key: string, p: Primitives) returns (original: string)
      modifies this
      ensures original == old(DecryptServerSeed(key, p))
      ensures visible
      ensures clientSeed == old(clientSeed) && serverSeed == old(serverSeed)
      ensures hashedServerSeedForUser == old(hashedServerSeedForUser) && nonce == old(nonce)
      ensures old(Committed(p, key)) ==> Committed(p, key) && p.hash(original) == hashedServerSeedForUser
    {
      original := DecryptServerSeed(key, p);
      visible := true;
    }

    /** Revealing twice gives the same plaintext and leaves the nonce alone. */
    method RevealServerSeedTwice(key: string, p: Primitives) returns (first: string, second: string)
      modifies this
      ensures first == second && visible
      ensures nonce == old(nonce) && serverSeed == old(serverSeed)
    {
      first := RevealServerSeed(key, p);
      second := RevealServerSeed(key, p);
    }
  }

  /**
   * The post-save signal on User: when the user was just created, create its
   * seed and commit to a fresh server seed `tmpServerSeed`; otherwise do nothing.
   */
  method UpdateSeedSignal(created: bool, tmpServerSeed: string, key: string, p: Primitives)
    returns (s: Seed?)
    ensures !created ==> s == null
    ensures created ==> s != null && fresh(s)
    ensures created ==> s.nonce == 0 && !s.visible && s.clientSeed == DefaultClientSeed
    ensures created ==> s.hashedServerSeedForUser == p.hash(tmpServerSeed)
    ensures created ==> s.serverSeed == p.encrypt(tmpServerSeed, key)
    ensures created && p.DecryptInvertsEncrypt() ==> s.Committed(p, key)
  {
    s := null;
    if created {
      s := new Seed();
      var hashedField := p.hash(tmpServerSeed);
      s.hashedServerSeedForUser := hashedField;
      s.serverSeed := p.encrypt(tmpServerSeed, key);
    }
  }
}
