/** Names and small types shared by every part of the model. */
module Units {

  datatype Option<+T> = None | Some(value: T)

  /** What a unit file describes; the file extension decides it. */
  datatype UnitKind = Interface | Jig | Logger | Scenario | Test | Trigger | Internal

  /** Units are referred to by name; the kind is part of the name. */
  datatype UnitName = UnitName(id: string, kind: UnitKind)
}
