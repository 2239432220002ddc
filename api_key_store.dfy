/**
 * The persisted API-key store: one nullable string field, `apiKey`, with
 * set, clear and an "is configured" test. Persistence to browser storage is
 * not part of this model.
 */
module ApiKeyStore {
  import opened Wrappers

  class KeyStore {
    /** The stored key; `None` is `null`. */
    var apiKey: Option<string>

    /** A fresh store holds no key. */
    constructor ()
      ensures apiKey == None
    {
      apiKey := None;
    }

    /** `setApiKey(key)`: the stored key becomes exactly `key`, `null` included. */
    method SetApiKey(key: Option<string>)
      modifies this
      ensures apiKey == key
    {
      apiKey := key;
    }

    /** `clearApiKey()`: the store no longer holds a key. */
    method ClearApiKey()
      modifies this
      ensures apiKey == None
    {
      apiKey := None;
    }

    /**
     * `isConfigured()`, that is `!!apiKey`: true when a key is stored and it
     * is not the empty string, which JavaScript counts as false.
     */
    function IsConfigured(): (b: bool)
      reads this
      ensures b ==> apiKey.Some? && |apiKey.value| > 0
      ensures apiKey.Some? && apiKey.value != "" ==> b
    {
      match apiKey
      case None => false
      case Some(k) => k != ""
    }
  }

  /** `setApiKey(null)` leaves a store in the same state as `clearApiKey()`. */
  method SetNullIsClear(a: KeyStore, b: KeyStore)
    modifies a, b
    ensures a.apiKey == b.apiKey == None
    ensures !a.IsConfigured() && !b.IsConfigured()
  {
    a.SetApiKey(None);
    b.ClearApiKey();
  }
}
