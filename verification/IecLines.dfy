/** The three lines of the serial bus. */
module IecLines {
  datatype Lines = Lines(atn: bool, clk: bool, data: bool)

  const RELEASED := Lines(true, true, true)
}
