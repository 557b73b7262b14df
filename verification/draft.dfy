/**
 * The single-slot draft store (src/hooks/useDraft.js): `saveDraft`,
 * `loadDraft` and `clearDraft` over one fixed local-storage key.
 *
 * Local storage is a map from keys to the JSON values stored under them; the
 * text encoding in between is abstracted away.
 */
module Draft {
  import opened JsValues

  const DraftKey: string := "word-diary-draft-v1"

  /** `{count: Number(wordCount), words, result}`. */
  function Payload(wordCount: int, words: seq<JsValue>, result: string): JsValue {
    Obj(map["count" := Num(wordCount), "words" := Arr(words), "result" := Str(result)])
  }

  /** Storage after `saveDraft`: the key holds the new payload, whatever it held before. */
  function Saved(storage: map<string, JsValue>, wordCount: int, words: seq<JsValue>, result: string): map<string, JsValue> {
    storage[DraftKey := Payload(wordCount, words, result)]
  }

  /** What `loadDraft` returns: the stored value, or `null` when the key is absent. */
  function Loaded(storage: map<string, JsValue>): JsValue {
    if DraftKey in storage then storage[DraftKey] else Null
  }

  /** Storage after `clearDraft`. */
  function Cleared(storage: map<string, JsValue>): map<string, JsValue> {
    storage - {DraftKey}
  }

  /** The browser's local storage as seen through the hook. */
  class DraftStore {
    var storage: map<string, JsValue>

    constructor (initial: map<string, JsValue>)
      ensures storage == initial
    {
      storage := initial;
    }

    method SaveDraft(wordCount: int, words: seq<JsValue>, result: string)
      modifies this
      ensures storage == Saved(old(storage), wordCount, words, result)
    {
      storage := storage[DraftKey := Payload(wordCount, words, result)];
    }

    method LoadDraft() returns (draft: JsValue)
      ensures draft == Loaded(storage)
    {
      if DraftKey !in storage {
        return Null;
      }
      draft := storage[DraftKey];
    }

    method ClearDraft()
      modifies this
      ensures storage == Cleared(old(storage))
    {
      storage := storage - {DraftKey};
    }
  }

  /** Before any save there is nothing to load. */
  lemma LoadBeforeSave(storage: map<string, JsValue>)
    requires DraftKey !in storage
    ensures Loaded(storage) == Null
  {
  }

  /** Loading right after saving gives back exactly what was saved. */
  lemma LoadAfterSave(storage: map<string, JsValue>, wordCount: int, words: seq<JsValue>, result: string)
    ensures Loaded(Saved(storage, wordCount, words, result))
      == Obj(map["count" := Num(wordCount), "words" := Arr(words), "result" := Str(result)])
  {
  }

  /** A save replaces the earlier draft wholesale: the last write wins. */
  lemma LastSaveWins(storage: map<string, JsValue>, c1: int, w1: seq<JsValue>, r1: string, c2: int, w2: seq<JsValue>, r2: string)
    ensures Saved(Saved(storage, c1, w1, r1), c2, w2, r2) == Saved(storage, c2, w2, r2)
  {
  }

  /** After a clear nothing loads, and a second clear changes nothing. */
  lemma ClearIsFinalAndIdempotent(storage: map<string, JsValue>)
    ensures Loaded(Cleared(storage)) == Null
    ensures Cleared(Cleared(storage)) == Cleared(storage)
  {
  }

  /** Only the draft key is touched: every other entry is left as it was. */
  lemma OtherKeysUntouched(storage: map<string, JsValue>, key: string, wordCount: int, words: seq<JsValue>, result: string)
    requires key != DraftKey
    ensures key in Saved(storage, wordCount, words, result) <==> key in storage
    ensures key in Cleared(storage) <==> key in storage
    ensures key in storage ==>
      Saved(storage, wordCount, words, result)[key] == storage[key] && Cleared(storage)[key] == storage[key]
  {
  }
}
