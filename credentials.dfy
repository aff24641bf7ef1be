/** The per-user credential table of the webhook service: the JSON config
    file that maps a user id to that user's encrypted LLM endpoint and API
    key, how the service writes a user's pair and how it reads it back. */
module Credentials {
  import opened Wrappers
  import opened Codec
  import opened Paths

  /** The record stored under one user id, `{"url": …, "key": …}`. A field
      is `None` when it is missing or not a string, or when the record
      itself is not a JSON object. */
  datatype Entry = Entry(url: Option<Cipher>, key: Option<Cipher>)

  /** The config file on disk: absent, present but not a JSON object (bad
      JSON, or a list, number, …), or a table of records by user id. */
  datatype ConfigFile = Missing | Unreadable | Table(entries: map<string, Entry>)

  /** The records a readable file holds; a missing file holds none. */
  function Entries(file: ConfigFile): map<string, Entry> {
    if file.Table? then file.entries else map[]
  }

  /** Both fields of a record are present and decrypt under `fernet`. */
  predicate Opens(fernet: Key, e: Entry) {
    && e.url.Some? && e.key.Some?
    && Decrypt(fernet, e.url.value).Some? && Decrypt(fernet, e.key.value).Some?
  }

  /** The record `configure_llm` writes: both plaintexts encrypted. */
  function SealedEntry(fernet: Key, llmUrl: string, llmKey: string, urlNonce: nat, keyNonce: nat): Entry {
    Entry(Some(Encrypt(fernet, urlNonce, llmUrl)), Some(Encrypt(fernet, keyNonce, llmKey)))
  }

  /** The file after `configure_llm(llm_url, llm_key, user_id)`: an upsert of
      the user's sealed record. A file that is there but is not a JSON
      object makes `configure_llm` raise (in `json.load`, or in the item
      assignment on a non-object) before anything is written. */
  function Configure(file: ConfigFile, fernet: Key, userId: string, llmUrl: string, llmKey: string,
                     urlNonce: nat, keyNonce: nat): (r: ConfigFile)
    ensures file.Unreadable? ==> r == file
    ensures !file.Unreadable? ==>
      && r.Table?
      && r.entries.Keys == Entries(file).Keys + {userId}
      && r.entries[userId] == SealedEntry(fernet, llmUrl, llmKey, urlNonce, keyNonce)
      && (forall u :: u in Entries(file) && u != userId ==> r.entries[u] == Entries(file)[u])
  {
    var sealed := SealedEntry(fernet, llmUrl, llmKey, urlNonce, keyNonce);
    match file
    case Unreadable => file
    case Missing => Table(map[userId := sealed])
    case Table(entries) => Table(entries[userId := sealed])
  }

  /** `_load_llm(user_id)`: the decrypted `(url, key)` of the user's record,
      or `(None, None)` when the file is missing or unreadable, the user has
      no record, a field is missing, or either field fails to decrypt. The
      caller cannot tell those cases apart. */
  function Load(file: ConfigFile, fernet: Key, userId: string): (r: (Option<string>, Option<string>))
    ensures r.0.Some? <==> r.1.Some?
    ensures r.0.Some? <==> file.Table? && userId in file.entries && Opens(fernet, file.entries[userId])
    ensures r.0.Some? ==>
      var e := file.entries[userId];
      Decrypt(fernet, e.url.value) == r.0 && Decrypt(fernet, e.key.value) == r.1
  {
    match file
    case Missing => (None, None)
    case Unreadable => (None, None)
    case Table(entries) =>
      if userId !in entries then (None, None)
      else
        var entry := entries[userId];
        if entry.url.None? || entry.key.None? then (None, None)
        else
          match (Decrypt(fernet, entry.url.value), Decrypt(fernet, entry.key.value))
          case (Some(url), Some(key)) => (Some(url), Some(key))
          case _ => (None, None)
  }

  /** After a successful write, the user's record reads back as exactly the
      pair that was written, whatever the nonces were. */
  lemma LoadAfterConfigure(file: ConfigFile, fernet: Key, userId: string, llmUrl: string, llmKey: string,
                           urlNonce: nat, keyNonce: nat)
    requires !file.Unreadable?
    ensures Load(Configure(file, fernet, userId, llmUrl, llmKey, urlNonce, keyNonce), fernet, userId)
            == (Some(llmUrl), Some(llmKey))
  {
  }

  /** Writing one user's pair leaves what every other user reads unchanged. */
  lemma ConfigureIsolation(file: ConfigFile, fernet: Key, userId: string, other: string,
                           llmUrl: string, llmKey: string, urlNonce: nat, keyNonce: nat)
    requires other != userId
    ensures Load(Configure(file, fernet, userId, llmUrl, llmKey, urlNonce, keyNonce), fernet, other)
            == Load(file, fernet, other)
  {
  }

  /** A second write for the same user replaces the first (last write wins). */
  lemma LastWriteWins(file: ConfigFile, fernet: Key, userId: string,
                      url1: string, key1: string, n1: nat, m1: nat,
                      url2: string, key2: string, n2: nat, m2: nat)
    ensures Configure(Configure(file, fernet, userId, url1, key1, n1, m1), fernet, userId, url2, key2, n2, m2)
            == Configure(file, fernet, userId, url2, key2, n2, m2)
  {
    if file.Table? {
      var e1 := SealedEntry(fernet, url1, key1, n1, m1);
      var e2 := SealedEntry(fernet, url2, key2, n2, m2);
      assert file.entries[userId := e1][userId := e2] == file.entries[userId := e2];
    } else if file.Missing? {
      var e1 := SealedEntry(fernet, url1, key1, n1, m1);
      var e2 := SealedEntry(fernet, url2, key2, n2, m2);
      assert map[userId := e1][userId := e2] == map[userId := e2];
    }
  }

  /** Writes for two different users give the same file in either order,
      so neither can overwrite the other's record. */
  lemma ConfigureCommutes(file: ConfigFile, fernet: Key,
                          u: string, urlU: string, keyU: string, nu: nat, mu: nat,
                          v: string, urlV: string, keyV: string, nv: nat, mv: nat)
    requires u != v
    ensures Configure(Configure(file, fernet, u, urlU, keyU, nu, mu), fernet, v, urlV, keyV, nv, mv)
            == Configure(Configure(file, fernet, v, urlV, keyV, nv, mv), fernet, u, urlU, keyU, nu, mu)
  {
    var eu := SealedEntry(fernet, urlU, keyU, nu, mu);
    var ev := SealedEntry(fernet, urlV, keyV, nv, mv);
    var base := Entries(file);
    if !file.Unreadable? {
      assert base[u := eu][v := ev] == base[v := ev][u := eu];
    }
  }

  /** Records written under one key read as "not configured" under another:
      a lost or replaced key file fails closed. */
  lemma ReplacedKeyLooksUnconfigured(file: ConfigFile, fernet: Key, other: Key, userId: string,
                                     llmUrl: string, llmKey: string, urlNonce: nat, keyNonce: nat)
    requires fernet != other
    ensures Load(Configure(file, fernet, userId, llmUrl, llmKey, urlNonce, keyNonce), other, userId) == (None, None)
  {
  }

  /** The service object: the sanitised names of its two files, the Fernet
      key read from the key file, and the contents of the config file,
      which `ConfigureLlm` rewrites and `LoadLlm` reads. */
  class AlexaAI {
    const configFile: string
    const keyFile: string
    const fernet: Key
    var config: ConfigFile

    constructor (configFile: string, keyFile: string, fernet: Key, config: ConfigFile)
      ensures this.configFile == configFile && this.keyFile == keyFile
      ensures this.fernet == fernet && this.config == config
    {
      this.configFile := configFile;
      this.keyFile := keyFile;
      this.fernet := fernet;
      this.config := config;
    }

    /** `AlexaAI(config_file, key_file)`: sanitise both names (raising on
        the first bad one), then use the key already in the key file or, on
        first start, the freshly generated key that is written there. */
    static method Create(keyOnDisk: Option<Key>, generatedKey: Key, configOnDisk: ConfigFile,
                         configFile: string := "user_config.json", keyFile: string := "secret.key")
      returns (r: Result<AlexaAI, string>)
      ensures r.Success? <==> SanitizePath(configFile).Success? && SanitizePath(keyFile).Success?
      ensures SanitizePath(configFile).Failure? ==> r == Failure(SanitizePath(configFile).error)
      ensures SanitizePath(configFile).Success? && SanitizePath(keyFile).Failure? ==>
                r == Failure(SanitizePath(keyFile).error)
      ensures r.Success? ==>
        && fresh(r.value)
        && r.value.configFile == SanitizePath(configFile).value
        && r.value.keyFile == SanitizePath(keyFile).value
        && r.value.fernet == keyOnDisk.GetOr(generatedKey)
        && r.value.config == configOnDisk
    {
      var safeConfig := SanitizePath(configFile);
      if safeConfig.Failure? {
        return Failure(safeConfig.error);
      }
      var safeKey := SanitizePath(keyFile);
      if safeKey.Failure? {
        return Failure(safeKey.error);
      }
      var key := generatedKey;
      if keyOnDisk.Some? {
        key := keyOnDisk.value;
      }
      var app := new AlexaAI(safeConfig.value, safeKey.value, key, configOnDisk);
      return Success(app);
    }

    /** `configure_llm(llm_url, llm_key, user_id="default")`: encrypt both
        values, load the table (empty when the file is missing), store the
        user's record and write the table back. `saved` is false when the
        existing file is not a JSON object: the call raises (in `json.load`,
        or in the item assignment) and leaves the file as it was. */
    method ConfigureLlm(urlNonce: nat, keyNonce: nat, llmUrl: string, llmKey: string, userId: string := "default")
      returns (saved: bool)
      modifies this
      ensures saved <==> !old(config).Unreadable?
      ensures config == Configure(old(config), fernet, userId, llmUrl, llmKey, urlNonce, keyNonce)
      ensures saved ==> LoadLlm(userId) == (Some(llmUrl), Some(llmKey))
    {
      var encryptedUrl := Encrypt(fernet, urlNonce, llmUrl);
      var encryptedKey := Encrypt(fernet, keyNonce, llmKey);
      var table: map<string, Entry> := map[];
      if config.Unreadable? {
        return false;
      }
      if config.Table? {
        table := config.entries;
      }
      table := table[userId := Entry(Some(encryptedUrl), Some(encryptedKey))];
      config := Table(table);
      saved := true;
      LoadAfterConfigure(old(config), fernet, userId, llmUrl, llmKey, urlNonce, keyNonce);
    }

    /** `_load_llm(user_id)` against the current config file. */
    function LoadLlm(userId: string): (r: (Option<string>, Option<string>))
      reads this
      ensures r.0.Some? <==> r.1.Some?
      ensures r.0.Some? ==> config.Table? && userId in config.entries
      ensures r == Load(config, fernet, userId)
    {
      Load(config, fernet, userId)
    }
  }
}
