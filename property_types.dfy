/** The record types shared by every part of the listing code. */
module PropertyTypes {

  /**
   * One listed real-estate unit. `tipo` is a plain string: the catalog is
   * read from JSON with a type cast, so nothing but the normaliser of
   * properties.ts restricts it to "Casa" and "Departamento".
   */
  datatype Property = Property(
    id: int,
    titulo: string,
    ciudad: string,
    tipo: string,
    precio: int,
    ambientes: int,
    metrosCuadrados: int,
    imagen: string)

  /** A property together with its similarity to a target, in tenths (0 to 10). */
  datatype PropertyWithScore = PropertyWithScore(property: Property, similarityScore: int)

  const Casa: string := "Casa"
  const Departamento: string := "Departamento"

  predicate IsPropertyType(t: string) {
    t == Casa || t == Departamento
  }
}
