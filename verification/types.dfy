/** The records and the enumeration shared by the controller and the screen (types.ts). */
module Types {
  import opened Wrappers

  /** One entry of the static channel table; `description` is optional and unused by the table. */
  datatype Channel = Channel(id: int, name: string, url: string, category: string, description: Option<string>)

  /** The four display states; exactly one is active at a time. */
  datatype TVState = OFF | STATIC | TUNING | PLAYING

  /** Program-guide text for the on-screen display. */
  datatype ProgramInfo = ProgramInfo(title: string, synopsis: string, startTime: string)
}
