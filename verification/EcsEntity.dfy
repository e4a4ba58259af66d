/** Entities: an index and a generation (ecs/entity.go). */
module EcsEntity {

  /** Generations are unbounded here, so the generation after one never wraps. */
  datatype Entity = Entity(index: nat, generation: nat)

  /** No live entity has generation 0, so none is NO_ENTITY. */
  const NO_ENTITY := Entity(0, 0)

  function NextGeneration(generation: nat): nat {
    generation + 1
  }
}
