/**
 * The shape vocabulary shared by the server-side compatibility relation and
 * the client-side request builder: the marker types `NoQuery`, `Query<T>`,
 * `NoBody` and `JsonBody<T>`, and the Rust types they are parameterised by;
 * together with the `Option` and `Result` wrappers every other module uses.
 */
module Shapes {

  datatype Option<+T> = None | Some(value: T)

  datatype Result<+T, +E> = Success(value: T) | Failure(error: E)

  /**
   * A Rust type standing for a shape parameter `T`. Only two things about it
   * matter to this crate: whether it implements serde's `Serialize` and
   * whether it implements `Deserialize`.
   */
  datatype Ty = Ty(name: string, serialize: bool, deserialize: bool) {
    /** The bound `T: Serialize + Deserialize<'de>` of the actix impls. */
    predicate Serde() { serialize && deserialize }
  }

  /** `NoQuery` or `Query<T>`: what a route guarantees about its query string. */
  datatype QueryShape = NoQuery | Query(t: Ty)

  /** `NoBody` or `JsonBody<T>`: what a route guarantees about a request or response body. */
  datatype BodyShape = NoBody | JsonBody(t: Ty)

  /** A value of type `ty`; its contents are opaque to this crate. */
  datatype Value = Value(ty: Ty, data: string)
}
