// Index labels: a model's `app_label.ModelName` becomes the Meilisearch index
// uid `app_label-ModelName`, and the status command maps it back.

module Labels {

  /** Every occurrence of `a` in `s` replaced by `b` (Python's `str.replace` on one character). */
  function Replace(s: string, a: char, b: char): string
  {
    if s == [] then [] else [if s[0] == a then b else s[0]] + Replace(s[1..], a, b)
  }

  lemma {:induction false} ReplaceAt(s: string, a: char, b: char)
    ensures |Replace(s, a, b)| == |s|
    ensures forall i :: 0 <= i < |s| ==> Replace(s, a, b)[i] == if s[i] == a then b else s[i]
  {
    if s != [] {
      ReplaceAt(s[1..], a, b);
      var r := Replace(s, a, b);
      forall i | 0 <= i < |s| ensures r[i] == if s[i] == a then b else s[i] {
        if i > 0 {
          assert r[i] == Replace(s[1..], a, b)[i - 1];
          assert s[i] == s[1..][i - 1];
        }
      }
    }
  }

  /** `get_index_label`: the model's Django label with every '.' replaced by '-'. */
  function IndexLabel(modelLabel: string): string
  {
    Replace(modelLabel, '.', '-')
  }

  /** The status command's inverse mapping from an index uid back to a model label. */
  function StatusModelName(uid: string): string
  {
    Replace(uid, '-', '.')
  }

  /**
   * The uid has the label's length, contains no '.', turns each '.' into '-'
   * and keeps every other character in place.
   */
  lemma IndexLabelShape(modelLabel: string)
    ensures var uid := IndexLabel(modelLabel);
      && |uid| == |modelLabel|
      && '.' !in uid
      && forall i :: 0 <= i < |modelLabel| ==>
           uid[i] == if modelLabel[i] == '.' then '-' else modelLabel[i]
  {
    ReplaceAt(modelLabel, '.', '-');
  }

  /** Mapping '-' back to '.' recovers the label whenever the label has no '-'. */
  lemma StatusRoundTrip(modelLabel: string)
    requires '-' !in modelLabel
    ensures StatusModelName(IndexLabel(modelLabel)) == modelLabel
  {
    var uid := IndexLabel(modelLabel);
    ReplaceAt(modelLabel, '.', '-');
    ReplaceAt(uid, '-', '.');
    var back := StatusModelName(uid);
    assert |back| == |modelLabel|;
    forall i | 0 <= i < |back| ensures back[i] == modelLabel[i] {
      assert modelLabel[i] != '-';
    }
  }

  /** Two labels that differ only by '.' versus '-' share an index uid. */
  lemma LabelCollision()
    ensures IndexLabel("app.Page") == IndexLabel("app-Page")
    ensures "app.Page" != "app-Page"
  {
    assert IndexLabel("app.Page") == "app-Page" by {
      ReplaceAt("app.Page", '.', '-');
    }
    assert IndexLabel("app-Page") == "app-Page" by {
      ReplaceAt("app-Page", '.', '-');
    }
  }
}
