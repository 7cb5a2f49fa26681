/** The `[3]int` RGB colours given to the joints (arm.go, armloop.go). */
module Colors {

  datatype Rgb = Rgb(r: int, g: int, b: int)

  const Red: Rgb := Rgb(255, 0, 0)       // a stopped arm.go arm
  const Yellow: Rgb := Rgb(255, 255, 0)  // waiting
  const Blue: Rgb := Rgb(0, 0, 255)      // finished
  const White: Rgb := Rgb(255, 255, 255) // testing
}
