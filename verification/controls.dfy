/** The keyboard state the game samples once per tick. */
module Controls {
  /**
   * pygame.key.get_pressed(), reduced to the keys the game reads; `other`
   * stands for every other key, which only matters to `any(keys)`.
   */
  datatype Keys = Keys(space: bool, w: bool, a: bool, s: bool, d: bool, other: bool) {
    /** Python's `any(keys)`: some key, meaningful to the game or not, is held. */
    predicate AnyPressed() { space || w || a || s || d || other }
  }

  const NO_KEYS: Keys := Keys(false, false, false, false, false, false)
}
