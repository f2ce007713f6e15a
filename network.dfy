/** The value types of the architecture: one layer of the toy network. */
module Network {
  import opened Basics

  datatype LayerType = Dense | Conv2d | Lstm | Dropout

  datatype Activation = Relu | Sigmoid | Tanh | Softmax

  /** One layer of the architecture list. `activation` is an optional key. */
  datatype LayerConfig = LayerConfig(
    id: string,
    layerType: LayerType,
    units: int,
    activation: Option<Activation>,
    name: string)

  /** No two layers of the list share an id. */
  predicate UniqueIds(layers: seq<LayerConfig>) {
    forall p, q :: 0 <= p < q < |layers| ==> layers[p].id != layers[q].id
  }

  /** `id` is the id of no layer in the list. */
  predicate FreshId(layers: seq<LayerConfig>, id: string) {
    forall k :: 0 <= k < |layers| ==> layers[k].id != id
  }
}
