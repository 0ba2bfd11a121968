/**
 * The entity and the creation input (model/Cat.kt): two immutable records.
 * The JVM value types they use (java.util.UUID, java.time.Instant,
 * java.time.LocalDate) are modelled by their state only.
 */
module Model {

  /** A signed 64-bit `Long`, as the JVM stores the halves of a UUID and an instant's seconds. */
  newtype Long = x: int | -0x8000_0000_0000_0000 <= x < 0x8000_0000_0000_0000

  /** java.util.UUID: two 64-bit halves; equality is equality of both halves. */
  datatype Uuid = Uuid(mostSigBits: Long, leastSigBits: Long)

  type Nano = n: int | 0 <= n < 1_000_000_000

  /** java.time.Instant: seconds since the epoch and a nanosecond adjustment. */
  datatype Instant = Instant(epochSecond: Long, nano: Nano)

  type Month = m: int | 1 <= m <= 12 witness 1
  type DayOfMonth = d: int | 1 <= d <= 31 witness 1

  /** java.time.LocalDate: a calendar date with no time part. */
  datatype LocalDate = LocalDate(year: int, month: Month, day: DayOfMonth)

  /** The stored entity; every field is a `val`, so a value never changes once built. */
  datatype Cat = Cat(
    id: Uuid,
    userId: string,
    createdAt: Instant,
    name: string,
    dateOfBirth: LocalDate,
    breed: string,
    color: string)

  /**
   * What a client may send: the writable subset of `Cat`. It has no `id`,
   * `userId` or `createdAt`, so a client cannot choose them.
   */
  datatype CatDto = CatDto(
    name: string,
    dateOfBirth: LocalDate,
    breed: string,
    color: string)

  /**
   * The owner id a created cat carries. The service never supplies one, so
   * every cat it builds carries this placeholder.
   */
  const UnsetUserId: string := ""

  /** The client-writable part of a cat: its same-named, same-typed fields. */
  function DtoOf(c: Cat): (d: CatDto)
    ensures d.name == c.name && d.dateOfBirth == c.dateOfBirth
    ensures d.breed == c.breed && d.color == c.color
  {
    CatDto(c.name, c.dateOfBirth, c.breed, c.color)
  }

  /**
   * The cat `addCat` builds: the system-assigned id and instant merged with
   * the client's fields.
   */
  function NewCat(dto: CatDto, id: Uuid, createdAt: Instant): (c: Cat)
    ensures c.id == id && c.createdAt == createdAt && c.userId == UnsetUserId
    ensures DtoOf(c) == dto
  {
    Cat(id, UnsetUserId, createdAt, dto.name, dto.dateOfBirth, dto.breed, dto.color)
  }

  /** A cat is determined by its system fields and its client fields: NewCat inverts DtoOf. */
  lemma NewCatOfDtoOf(c: Cat)
    requires c.userId == UnsetUserId
    ensures NewCat(DtoOf(c), c.id, c.createdAt) == c
  {
  }

  /** Two cats are equal exactly when all seven fields are equal (data-class equality). */
  lemma CatEquality(a: Cat, b: Cat)
    ensures a == b <==>
      && a.id == b.id && a.userId == b.userId && a.createdAt == b.createdAt
      && a.name == b.name && a.dateOfBirth == b.dateOfBirth
      && a.breed == b.breed && a.color == b.color
  {
  }
}
