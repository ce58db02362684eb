/** Trails through a graph, the last step outermost. */
module Trails {

  datatype Trail<T> = At(target: T) | To(init: Trail<T>, target: T)

  function Origin<T>(t: Trail<T>): T { if t.At? then t.target else Origin(t.init) }
}
