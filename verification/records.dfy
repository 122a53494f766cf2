/** The two tables of the fixture store, one datatype per row. Timestamps are
    integers (see module Calendar); the integer primary key is left out and
    the position of a row in its table's sequence stands for insertion order. */
module Records {

  /** A row of `emails`. */
  datatype Email = Email(
    sender: string,
    recipient: string,
    subject: string,
    body: string,
    timestamp: int,
    threadId: int)

  /** A row of `calendar_events`: exactly the columns the calendar search returns. */
  datatype Event = Event(
    title: string,
    description: string,
    startTime: int,
    endTime: int)
}
