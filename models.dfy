/** The database rows of the marketplace that the core reads and writes. */
module Models {
  import opened Wrappers

  /** The status column shared by the three request tables. */
  datatype Status = Pending | Approved | Rejected

  datatype User = User(id: int, username: string, role: string)

  datatype Street = Street(name: string, code: string)

  datatype Pavilion = Pavilion(title: string, description: string, streetId: int)

  /** A listing; `masterId` is the owning master, unset until one is assigned. */
  datatype Ad = Ad(title: string, text: string, authorName: Option<string>, pavilionId: int, masterId: Option<int>)
}
