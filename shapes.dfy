/** The closed set of shapes the particle cloud can morph between. */
module Shapes {

  datatype ShapeType = Text | Heart | Fireworks | Rabbit | Snow | Rose
}
