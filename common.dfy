/** Values shared by the console's components: optional values, the outcome of an image
    upload, the log of user-visible effects, and the `splice(index, 1)` removal that every
    list editor uses. */
module Common {

  datatype Option<T> = None | Some(value: T)

  /** A file picked in the browser; only its presence matters to the state logic. */
  type FileRef = string

  /** What the image-upload endpoint answered: a failure (the request threw) or the new id. */
  datatype Upload = UploadFailed | Uploaded(id: string)

  /** What a component shows the operator, in order: a toast, a `window.confirm` prompt, or the
      point at which the delete guard invoked its `onDelete` callback. */
  datatype Effect = Toast(message: string) | ConfirmPrompt(question: string) | DeleteCallback

  /** `s.splice(i, 1)` for a non-negative index: the element at `i` is removed, and an index
      past the end removes nothing. */
  function SpliceOut<T>(s: seq<T>, i: nat): (r: seq<T>)
    ensures i < |s| ==> |r| == |s| - 1
    ensures i < |s| ==> forall j :: 0 <= j < i ==> r[j] == s[j]
    ensures i < |s| ==> forall j :: i <= j < |r| ==> r[j] == s[j + 1]
    ensures |s| <= i ==> r == s
  {
    if i < |s| then s[..i] + s[i + 1..] else s
  }

  /** Removing one element loses exactly that element and keeps every other one. */
  lemma SpliceOutMultiset<T>(s: seq<T>, i: nat)
    requires i < |s|
    ensures multiset(SpliceOut(s, i)) + multiset{s[i]} == multiset(s)
  {
    assert s == s[..i] + [s[i]] + s[i + 1..];
  }
}
