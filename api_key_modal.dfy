/**
 * The API-key dialog: its save and clear handlers, the input they read,
 * the error and "saved" flags they set, and the masking of a stored key
 * for display.
 */
module ApiKeyModal {
  import opened Wrappers
  import opened Text
  import opened ApiKeyStore

  const EmptyKeyError: string := "Please enter your API key"
  const FormatError: string := "Invalid API key format"
  /** Keys with this prefix pass the format check at any length. */
  const KeyPrefix: string := "AI"
  /** Keys at least this long pass the format check with any prefix. */
  const MinKeyLength: nat := 20
  /** The character that stands for a hidden key character. */
  const Bullet: char := '\U{2022}'

  /**
   * `maskKey`: a key of at most 8 characters is shown as it is; a longer one
   * keeps its first 4 and last 4 characters and every character between
   * them is replaced by a bullet, so the length is kept.
   */
  function MaskKey(key: string): (r: string)
    ensures |r| == |key|
    ensures |key| <= 8 ==> r == key
    ensures |key| > 8 ==> r[..4] == key[..4] && r[|r| - 4..] == key[|key| - 4..]
    ensures |key| > 8 ==> forall i :: 4 <= i < |r| - 4 ==> r[i] == Bullet
  {
    if |key| <= 8 then key
    else key[..4] + Repeat(Bullet, |key| - 8) + key[|key| - 4..]
  }

  /** Masking a masked key changes nothing. */
  lemma MaskKeyIdempotent(key: string)
    ensures MaskKey(MaskKey(key)) == MaskKey(key)
  {
    var m := MaskKey(key);
    if |key| > 8 {
      var mm := MaskKey(m);
      forall i | 0 <= i < |m| ensures mm[i] == m[i] {
        if i < 4 {
          assert mm[i] == mm[..4][i] && m[i] == m[..4][i];
        } else if i >= |m| - 4 {
          assert mm[i] == mm[|mm| - 4..][i - (|m| - 4)];
          assert m[i] == m[|m| - 4..][i - (|m| - 4)];
        }
      }
    }
  }

  /**
   * A mask shows nothing of a long key but its ends and its length: two
   * keys longer than 8 characters with the same length and the same first
   * and last 4 characters are masked alike.
   */
  lemma MaskKeyRevealsOnlyEnds(a: string, b: string)
    requires |a| == |b| > 8
    requires a[..4] == b[..4] && a[|a| - 4..] == b[|b| - 4..]
    ensures MaskKey(a) == MaskKey(b)
  {
    var ma, mb := MaskKey(a), MaskKey(b);
    forall i | 0 <= i < |ma| ensures ma[i] == mb[i] {
      if i < 4 {
        assert ma[i] == ma[..4][i] && mb[i] == mb[..4][i];
      } else if i >= |ma| - 4 {
        assert ma[i] == ma[|ma| - 4..][i - (|ma| - 4)];
        assert mb[i] == mb[|mb| - 4..][i - (|mb| - 4)];
      }
    }
  }

  /** What the save handler decides about an input. */
  datatype Verdict = Accepted(key: string) | Rejected(message: string)

  /**
   * The checks of `handleSave`: an input that is empty after trimming is
   * refused, then a trimmed key that neither starts with "AI" nor has 20
   * characters is refused; otherwise the trimmed key is accepted.
   */
  function ValidateKey(input: string): (v: Verdict)
    ensures v.Accepted? ==> v.key == Trim(input) && v.key != []
    ensures v.Rejected? ==> v.message == EmptyKeyError || v.message == FormatError
  {
    var trimmed := Trim(input);
    if trimmed == [] then Rejected(EmptyKeyError)
    else if !StartsWith(trimmed, KeyPrefix) && |trimmed| < MinKeyLength then Rejected(FormatError)
    else Accepted(trimmed)
  }

  /** The "enter your key" refusal is given exactly for an empty or whitespace-only input. */
  lemma BlankInputRefused(input: string)
    ensures ValidateKey(input) == Rejected(EmptyKeyError) <==> AllWhitespace(input)
  {
    TrimEmpty(input);
  }

  /**
   * The format refusal is given exactly when the trimmed key is not empty,
   * does not start with "AI" and is shorter than 20 characters.
   */
  lemma FormatRefusedExactly(input: string)
    ensures var t := Trim(input);
      ValidateKey(input) == Rejected(FormatError) <==>
      t != [] && !StartsWith(t, KeyPrefix) && |t| < MinKeyLength
  {
  }

  /**
   * An accepted key is the trimmed input: not blank, with no whitespace at
   * either end, and either starting with "AI" or at least 20 long.
   */
  lemma AcceptedKeyShape(input: string)
    requires ValidateKey(input).Accepted?
    ensures var k := ValidateKey(input).key;
      k == Trim(input) && !AllWhitespace(input) &&
      !IsWhitespace(k[0]) && !IsWhitespace(k[|k| - 1]) &&
      (StartsWith(k, KeyPrefix) || |k| >= MinKeyLength)
  {
    TrimEmpty(input);
  }

  /** Any non-blank input whose trimmed form starts with "AI" is accepted, whatever its length. */
  lemma PrefixedKeyAccepted(input: string)
    requires !AllWhitespace(input) && StartsWith(Trim(input), KeyPrefix)
    ensures ValidateKey(input) == Accepted(Trim(input))
  {
    TrimEmpty(input);
  }

  /** Any input whose trimmed form has 20 characters or more is accepted, whatever its prefix. */
  lemma LongKeyAccepted(input: string)
    requires |Trim(input)| >= MinKeyLength
    ensures ValidateKey(input) == Accepted(Trim(input))
  {
  }

  /** The dialog's local state, over the shared key store. */
  class Modal {
    const store: KeyStore
    var inputValue: string
    var showKey: bool
    var error: Option<string>
    var saved: bool

    /** Opening the dialog: the input starts as the stored key, or empty. */
    constructor (store: KeyStore)
      ensures this.store == store
      ensures inputValue == store.apiKey.GetOr("")
      ensures !showKey && error == None && !saved
    {
      this.store := store;
      inputValue := store.apiKey.GetOr("");
      showKey := false;
      error := None;
      saved := false;
    }

    /** Typing in the input replaces its value and clears the error. */
    method EditInput(value: string)
      modifies this
      ensures inputValue == value && error == None
      ensures showKey == old(showKey) && saved == old(saved)
    {
      inputValue := value;
      error := None;
    }

    /**
     * `handleSave`: a refused input sets the error and changes nothing
     * else; an accepted one is stored trimmed, the error is cleared and
     * `saved` is set.
     */
    method HandleSave()
      modifies this, store
      ensures match ValidateKey(old(inputValue))
        case Rejected(message) =>
          error == Some(message) && store.apiKey == old(store.apiKey) && saved == old(saved)
        case Accepted(key) =>
          error == None && store.apiKey == Some(key) && saved
      ensures inputValue == old(inputValue) && showKey == old(showKey)
    {
      match ValidateKey(inputValue)
      case Rejected(message) =>
        error := Some(message);
      case Accepted(key) =>
        store.SetApiKey(Some(key));
        error := None;
        saved := true;
    }

    /** `handleClear`: the stored key is removed, the input emptied and the error cleared. */
    method HandleClear()
      modifies this, store
      ensures store.apiKey == None && inputValue == "" && error == None
      ensures showKey == old(showKey) && saved == old(saved)
    {
      store.ClearApiKey();
      inputValue := "";
      error := None;
    }
  }
}
