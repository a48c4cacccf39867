/** Key material, the agent's keystore and the encrypted Local Key Cache, as values. */
module Keys {
  import opened Text
  import opened Numbers

  type PublicKey = string

  /** A private key text: one the OpenSSH parser accepts, or not. */
  datatype Pem = OpenSsh(pub: PublicKey, secret: int) | Unreadable(text: string)

  datatype KeyTuple = KeyTuple(pem: Pem, name: string, id: string)

  datatype Entry = Entry(secret: Option<Pem>, name: string, id: string)

  type Keystore = map<PublicKey, Entry>

  /** What `ssh-add -l` shows of one entry. */
  datatype Listing = Listing(name: string, id: string)

  function Listed(ks: Keystore): map<PublicKey, Listing> {
    map pk <- ks :: Listing(ks[pk].name, ks[pk].id)
  }

  ghost predicate NoSecrets(ks: Keystore) {
    forall pk <- ks :: ks[pk].secret.None?
  }

  // --- Loading ------------------------------------------------------------

  function LoadOne(ks: Keystore, key: KeyTuple): Keystore {
    match key.pem
    case OpenSsh(pub, _) => ks[pub := Entry(Some(key.pem), key.name, key.id)]
    case Unreadable(_) => ks
  }

  /** `set_keys`, from an empty keystore: unreadable keys are skipped, later ones displace. */
  function Load(keys: seq<KeyTuple>): Keystore {
    if keys == [] then map[] else LoadOne(Load(keys[..|keys| - 1]), keys[|keys| - 1])
  }

  predicate Has(key: KeyTuple, pk: PublicKey) {
    key.pem.OpenSsh? && key.pem.pub == pk
  }

  /** The last tuple with a given public key, if any. */
  function LastWith(keys: seq<KeyTuple>, pk: PublicKey): (r: Option<KeyTuple>)
    ensures r.None? ==> forall k <- keys :: !Has(k, pk)
    ensures r.Some? ==> r.value in keys && Has(r.value, pk)
  {
    if keys == [] then None
    else if Has(keys[|keys| - 1], pk) then Some(keys[|keys| - 1])
    else LastWith(keys[..|keys| - 1], pk)
  }

  /** The keystore holds exactly the last readable tuple of each public key. */
  lemma {:induction false} LoadIsLastWins(keys: seq<KeyTuple>, pk: PublicKey)
    ensures pk in Load(keys) <==> LastWith(keys, pk).Some?
    ensures pk in Load(keys) ==>
              var k := LastWith(keys, pk).value; Load(keys)[pk] == Entry(Some(k.pem), k.name, k.id)
  {
    if keys != [] {
      LoadIsLastWins(keys[..|keys| - 1], pk);
    }
  }

  /** Cached public identities; one whose public key does not parse has none. */
  datatype Identity = Identity(pub: Option<PublicKey>, name: string, id: string)

  function IdentityOf(key: KeyTuple): Identity {
    Identity(if key.pem.OpenSsh? then Some(key.pem.pub) else None, key.name, key.id)
  }

  function IdentitiesOf(keys: seq<KeyTuple>): seq<Identity> {
    seq(|keys|, i requires 0 <= i < |keys| => IdentityOf(keys[i]))
  }

  function PublicOnly(ids: seq<Identity>): Keystore {
    if ids == [] then map[]
    else
      var front, last := PublicOnly(ids[..|ids| - 1]), ids[|ids| - 1];
      if last.pub.Some? then front[last.pub.value := Entry(None, last.name, last.id)] else front
  }

  lemma {:induction false} PublicOnlyHasNoSecrets(ids: seq<Identity>)
    ensures NoSecrets(PublicOnly(ids))
  {
    if ids != [] {
      PublicOnlyHasNoSecrets(ids[..|ids| - 1]);
    }
  }

  function Stripped(ks: Keystore): Keystore {
    map pk <- ks :: ks[pk].(secret := None)
  }

  /** A remembered device lists the same identities locked, from the header, as unlocked. */
  lemma {:induction false} HeaderListsTheKeys(keys: seq<KeyTuple>)
    ensures Listed(PublicOnly(IdentitiesOf(keys))) == Listed(Load(keys))
  {
    if keys != [] {
      var front := keys[..|keys| - 1];
      HeaderListsTheKeys(front);
      var ids := IdentitiesOf(keys);
      assert ids[..|ids| - 1] == IdentitiesOf(front);
      ListedOne(PublicOnly(IdentitiesOf(front)), Load(front), keys[|keys| - 1]);
    }
  }

  lemma {:induction false} ListedOne(a: Keystore, b: Keystore, key: KeyTuple)
    requires Listed(a) == Listed(b)
    ensures key.pem.OpenSsh? ==>
      Listed(a[key.pem.pub := Entry(None, key.name, key.id)]) == Listed(LoadOne(b, key))
    ensures key.pem.Unreadable? ==> Listed(a) == Listed(LoadOne(b, key))
  {
    if key.pem.OpenSsh? {
      var x, y := a[key.pem.pub := Entry(None, key.name, key.id)], LoadOne(b, key);
      assert a.Keys == Listed(a).Keys && b.Keys == Listed(b).Keys;
      assert Listed(x).Keys == Listed(y).Keys;
      forall pk <- Listed(x) ensures Listed(x)[pk] == Listed(y)[pk] {
        if pk != key.pem.pub { assert Listed(a)[pk] == Listed(b)[pk]; }
      }
    }
  }

  // --- Fingerprints -------------------------------------------------------

  /** SHA-256 of the key text, taken to be free of collisions. */
  datatype Fingerprint = Fingerprint(pem: Pem)

  function Fingerprints(keys: seq<KeyTuple>): map<string, Fingerprint> {
    if keys == [] then map[]
    else Fingerprints(keys[..|keys| - 1])[keys[|keys| - 1].id := Fingerprint(keys[|keys| - 1].pem)]
  }

  /** Vault item ids name one item each. */
  predicate DistinctIds(keys: seq<KeyTuple>) {
    forall i, j :: 0 <= i < j < |keys| ==> keys[i].id != keys[j].id
  }

  lemma {:induction false} FingerprintOfKey(keys: seq<KeyTuple>)
    requires DistinctIds(keys)
    ensures forall k <- keys :: k.id in Fingerprints(keys) && Fingerprints(keys)[k.id] == Fingerprint(k.pem)
  {
    if keys != [] {
      var front, last := keys[..|keys| - 1], keys[|keys| - 1];
      FingerprintOfKey(front);
      assert forall k <- front :: k.id != last.id;
      assert keys == front + [last];
    }
  }

  // --- The Local Key Cache ------------------------------------------------

  type SymKey = nat
  type Pin = seq<Byte>  // the bytes of its text
  type Salt = nat

  const LEGACY_SALT: Salt := 0

  datatype Payload = KeyList(keys: seq<KeyTuple>) | Unparsable

  /** An ideal sealed box: opened by its key and nothing else. */
  datatype Sealed = Sealed(key: SymKey, data: Payload)

  /** A Local Cache Key wrapped under a PIN and a salt. */
  datatype PinBox = PinBox(pin: Pin, salt: Salt, key: SymKey)

  datatype CacheFile = CacheFile(
    version: nat,
    header: seq<Identity>,
    payload: Sealed,
    pinBox: Option<PinBox>,
    pinSalt: Option<Salt>,
    native: Option<SymKey>)

  /** `decrypt_envelope_payload`. */
  function OpenPayload(c: CacheFile, key: SymKey): Option<Payload> {
    if c.payload.key == key then Some(c.payload.data) else None
  }

  function SaltOf(c: CacheFile): Salt {
    if c.pinSalt.Some? then c.pinSalt.value else LEGACY_SALT
  }

  /** `decrypt_envelope_local_key_cache_with_pin`: the payload and the key that opened it. */
  function OpenWithPin(c: CacheFile, pin: Pin): Option<(Payload, SymKey)> {
    if c.pinBox.None? || c.pinBox.value.pin != pin || c.pinBox.value.salt != SaltOf(c) then None
    else
      var key := c.pinBox.value.key;
      match OpenPayload(c, key)
      case Some(data) => Some((data, key))
      case None => None
  }

  /** `build_envelope_local_key_cache`: always the current format version. */
  function BuildCache(keys: seq<KeyTuple>, key: SymKey, pinBox: Option<PinBox>, pinSalt: Option<Salt>, native: Option<SymKey>): CacheFile {
    CacheFile(3, IdentitiesOf(keys), Sealed(key, KeyList(keys)), pinBox, pinSalt, native)
  }

  function RefreshCache(c: CacheFile, keys: seq<KeyTuple>, key: SymKey): CacheFile {
    BuildCache(keys, key, c.pinBox, c.pinSalt, c.native)
  }

  function WriteCache(keys: seq<KeyTuple>, pin: Pin, salt: Salt, key: SymKey, native: bool): CacheFile {
    BuildCache(keys, key, Some(PinBox(pin, salt, key)), Some(salt), if native then Some(key) else None)
  }

  predicate NeedsMigration(c: CacheFile) {
    c.pinBox.Some? && (c.version < 3 || c.pinSalt.None?)
  }

  function MigrateCache(c: CacheFile, key: SymKey, pin: Pin, salt: Salt): CacheFile {
    c.(version := 3, pinBox := Some(PinBox(pin, salt, key)), pinSalt := Some(salt))
  }

  /** A cache that its PIN opens: slot and payload agree on the key, slot and file on the salt, header and payload on the keys. */
  predicate Opens(c: CacheFile, pin: Pin, keys: seq<KeyTuple>) {
    && c.payload.data == KeyList(keys) && c.header == IdentitiesOf(keys)
    && c.pinBox == Some(PinBox(pin, SaltOf(c), c.payload.key))
  }

  /** Any cache at all opens with a PIN exactly when its slot was wrapped under that PIN and the file's salt, around the sealing key. */
  lemma {:induction false} OpensOnlyThus(c: CacheFile, pin: Pin, data: Payload, key: SymKey)
    ensures OpenWithPin(c, pin) == Some((data, key)) <==>
      c.payload == Sealed(key, data) && c.pinBox == Some(PinBox(pin, if c.pinSalt == None then LEGACY_SALT else c.pinSalt.value, key))
  {
  }

  /** The round trip: exactly the PIN it was wrapped under opens the cache, to exactly its keys. */
  lemma {:induction false} PinOpens(c: CacheFile, pin: Pin, keys: seq<KeyTuple>, attempt: Pin)
    requires Opens(c, pin, keys)
    ensures OpenWithPin(c, attempt) == if attempt == pin then Some((KeyList(keys), c.payload.key)) else None
  {
  }

  /** Refreshing and migrating keep the PIN; writing replaces it. */
  lemma {:induction false} RewritesOpen(c: CacheFile, pin: Pin, keys: seq<KeyTuple>, newKeys: seq<KeyTuple>, newPin: Pin, salt: Salt, key: SymKey, native: bool)
    requires Opens(c, pin, keys)
    ensures Opens(RefreshCache(c, newKeys, c.payload.key), pin, newKeys)
    ensures Opens(MigrateCache(c, c.payload.key, pin, salt), pin, keys)
    ensures Opens(WriteCache(newKeys, newPin, salt, key, native), newPin, newKeys)
    ensures !NeedsMigration(MigrateCache(c, c.payload.key, pin, salt))
  {
  }
}
