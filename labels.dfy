/**
 * The `get…Text` helpers of the list screens: a status code is looked up in a
 * fixed table, and a code missing from the table is shown as it is.
 */
module Labels {
  import opened Js

  /** `table[code] || code`, as every helper writes it (by a switch or an object lookup). */
  function LabelOf(table: map<string, string>, code: string): (text: string)
    ensures code in table ==> text == table[code]
    ensures code !in table ==> text == code
  {
    if code in table then table[code] else code
  }

  /** '1' active, '2' disabled: the status table of users, customers, positions and the reference lists. */
  const ActiveOrDisabled: map<string, string> := map["1" := "ใช้งานได้", "2" := "ปิดใช้งาน"]
}
