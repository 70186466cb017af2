/** Fitted scikit-learn objects, kept opaque: only their interface is modelled. */
module Estimators {
  import opened Results
  import QueryValues

  /** A fitted `LabelEncoder`: class index `k` stands for `classes[k]`. */
  datatype LabelEncoder = LabelEncoder(classes: seq<string>)

  /** `encoder.inverse_transform([code])[0]`: the label of a class index, or the
      error raised for an index the encoder never saw. */
  function InverseTransform(enc: LabelEncoder, code: int): (r: Result<string, string>)
    ensures r.Ok? <==> 0 <= code < |enc.classes|
    ensures r.Ok? ==> r.value in enc.classes && r.value == enc.classes[code]
    ensures r.Err? ==> r.error == UnseenLabels(code)
  {
    if 0 <= code < |enc.classes| then Ok(enc.classes[code])
    else Err(UnseenLabels(code))
  }

  /** The ValueError text for an unknown code: the offending codes as numpy prints them. */
  function UnseenLabels(code: int): string {
    "y contains previously unseen labels: [" + QueryValues.ShowInt(code) + "]"
  }
}
