/** The values the logger handles: levels, local times and queued entries (Logger.h). */
module LogTypes {

  datatype Option<+T> = None | Some(value: T)

  /** Size of the buffer a message is formatted into, terminating NUL included. */
  const MAX_LOG_BUFFER_SIZE := 4096

  /** A 16-bit unsigned field of a Windows SYSTEMTIME. */
  type Word = w: int | 0 <= w < 0x1_0000

  datatype LogLevel = Info | Error | Warning

  datatype SystemTime = SystemTime(year: Word, month: Word, day: Word, hour: Word, minute: Word, second: Word) {

    predicate SameDate(other: SystemTime) {
      year == other.year && month == other.month && day == other.day
    }

    /** The ranges Windows documents for the fields of a SYSTEMTIME. */
    predicate ValidDate() {
      1601 <= year <= 30827 && 1 <= month <= 12 && 1 <= day <= 31
    }

    predicate Valid() {
      ValidDate() && hour < 24 && minute < 60 && second < 60
    }
  }

  /** What fits the formatting buffer: at most 4095 characters before the NUL. */
  type Message = s: string | |s| < MAX_LOG_BUFFER_SIZE

  datatype LogEntry = LogEntry(level: LogLevel, message: Message, time: SystemTime)

  lemma ConcatAssociative<T>(a: seq<T>, b: seq<T>, c: seq<T>)
    ensures a + b + c == a + (b + c)
  {
  }
}
