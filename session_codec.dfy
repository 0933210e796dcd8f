/**
 The encrypted form of a session kept in the keyring. Serialising to JSON
 and Fernet encryption under the installation key are modelled as sealing
 the session value with the key; anything in the slot that does not decode
 under the current key (a changed key, altered text, a payload that is not
 a session object) is an unreadable blob.
 */
module SessionCodec {
  import opened Wrappers
  import opened DemoTable

  datatype Blob = Sealed(key: string, payload: Session) | Unreadable(text: string)

  /** An empty keyring entry: restoration skips it without decrypting.
      A sealed blob is never empty, as a Fernet token never is. */
  predicate EmptyEntry(b: Blob) {
    b == Unreadable("")
  }

  /** Decrypts and decodes a blob; `None` stands for the exception path. */
  function Decrypt(b: Blob, key: string): (r: Option<Session>)
    ensures r.Some? <==> b.Sealed? && b.key == key
    ensures r.Some? ==> b == Sealed(key, r.value)
  {
    match b
    case Sealed(k, s) => if k == key then Some(s) else None
    case Unreadable(_) => None
  }

  /** Encodes and encrypts a session: decrypting with the same key gives it
      back, decrypting with any other key fails. */
  function Encrypt(s: Session, key: string): (b: Blob)
    ensures Decrypt(b, key) == Some(s)
    ensures forall other :: other != key ==> Decrypt(b, other) == None
  {
    Sealed(key, s)
  }
}
