/** Reading struct fields out of a JSON object the way encoding/json fills a Go struct. */
module JsonFields {
  import opened Common
  import opened Events

  type int64 = x: int | -0x8000_0000_0000_0000 <= x < 0x8000_0000_0000_0000

  /** Two's-complement wrap-around of a 64-bit addition. */
  function Wrap64(x: int): int64 {
    (x + 0x8000_0000_0000_0000) % 0x1_0000_0000_0000_0000 - 0x8000_0000_0000_0000
  }

  /** A missing field or null leaves the zero value; a value of another type is an error. */
  function StringField(p: Payload, key: string): Option<string> {
    if p.Malformed? then None
    else if key !in p.fields then Some("")
    else match p.fields[key]
      case JNull => Some("")
      case JStr(s) => Some(s)
      case _ => None
  }

  function Int64Field(p: Payload, key: string): Option<int64> {
    if p.Malformed? then None
    else if key !in p.fields then Some(0)
    else match p.fields[key]
      case JNull => Some(0)
      case JNum(n) => if -0x8000_0000_0000_0000 <= n < 0x8000_0000_0000_0000 then Some(n) else None
      case _ => None
  }
}
