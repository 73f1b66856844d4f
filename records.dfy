/** The two records of src/malmoext/types.py, `Vector` and `Entity`: plain
  * immutable tuples whose constructors check nothing.  The namedtuples take
  * objects of any type; here each field is given one fixed type. */
module Records {
  import opened Mobs
  import opened Taxonomy
  import opened Classification

  /** A point or a displacement in the world. */
  datatype Vector = Vector(x: real, y: real, z: real)

  /** An observed object: its instance id, its kind (the tuple's `type`
    * field: whatever value the caller passed, normally a member of Mob or
    * Block or an Item string), its position and how many of it there are. */
  datatype Entity = Entity(id: string, kind: Candidate, position: Vector, quantity: int)

  /** A cow seen in the world passes `Mob.contains`, is food and is not
    * hostile. */
  lemma CowEntityIsFood()
    ensures var e := Entity("e1", EnumMember(MobMember(Cow)), Vector(0.0, 64.0, 0.0), 1);
            Contains(MobEnum, e.kind) == Returns(true) &&
            e.kind.member.mob in FoodMobs && e.kind.member.mob !in HostileMobs
  {
    ContainsOwnMembers(MobMember(Cow));
  }

  /** Building an Entity checks nothing: a kind that names no mob and a
    * negative quantity are stored as given, and only a later
    * `Mob.contains` call tells that the kind is not a mob. */
  lemma EntityIsNotValidated()
    ensures var e := Entity("e2", RawStr("NotAMob"), Vector(0.0, 0.0, 0.0), -1);
            e.kind == RawStr("NotAMob") && e.quantity == -1 &&
            Contains(MobEnum, e.kind) == Returns(false)
  {
    UnknownNamesAreNotMobs("NotAMob");
  }
}
