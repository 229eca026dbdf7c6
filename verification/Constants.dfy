/** Capacity limits and message numbers shared by every process (include/constants.h). */
module Constants {
  const CHAIR_CAPACITY := 4
  const MAX_CHAIRS_IN_TRANSIT := 36
  const TOTAL_CHAIRS := 72
  const ENTRY_GATES := 4
  const EXIT_GATES := 2
  const PLATFORM_GATES := 3
  const MAX_KIDS_PER_ADULT := 2
  const MAX_PENDING_PER_CHAIR := 4
  const MAX_ACTIVE_CHAIRS := 64
  const TICKET_COUNT := 5

  datatype Option<+T> = None | Some(value: T)
}
