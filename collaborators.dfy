/** The collaborators whose code is not part of this model: the naming policy of
    `NamingGenerator` and the texts of `DocumentationGenerator`. What they compute
    is left uninterpreted: each is a fixed but unknown function of the generator
    it is asked through, and nothing proved here depends on what it returns. */
module Collaborators {
  import opened Wrappers
  import opened BoundboxModel

  /** The configuration a `NamingGenerator` is built with: the default one, or one
      built from a getter prefix and a setter prefix. */
  datatype NamingGenerator = NamingGenerator(prefixes: Option<(string, string)>)

  const DefaultNamingGenerator := NamingGenerator(None)

  // The names a `NamingGenerator` gives.
  const CreateBoundBoxName: (NamingGenerator, ClassInfo) -> string
  const ComputeCamelCaseNameStartUpperCase: (NamingGenerator, string) -> string
  const CreateGetterName: (NamingGenerator, FieldInfo, seq<string>, string) -> string
  const CreateSetterName: (NamingGenerator, FieldInfo, seq<string>, string) -> string
  const CreateMethodName: (NamingGenerator, MethodInfo, seq<string>) -> string
  const CreateInnerClassAccessorName: (NamingGenerator, ClassInfo) -> string

  /** A `DocumentationGenerator` object, known only by its identity. */
  type DocumentationGenerator

  // The texts a `DocumentationGenerator` writes.
  const GenerateJavadocForBoundBoxClass: (DocumentationGenerator, ClassInfo) -> string
  const GenerateJavadocForBoundBoxConstructor: (DocumentationGenerator, ClassInfo) -> string
  const GenerateJavadocForBoundConstructor: (DocumentationGenerator, ClassInfo, MethodInfo, string) -> string
  const GenerateJavadocForBoundSetter: (DocumentationGenerator, ClassInfo, FieldInfo) -> string
  const GenerateJavadocForBoundGetter: (DocumentationGenerator, ClassInfo, FieldInfo) -> string
  const GenerateJavadocForBoundMethod: (DocumentationGenerator, ClassInfo, MethodInfo, string) -> string
  const GenerateJavadocForBoundInnerClass: (DocumentationGenerator, ClassInfo) -> string
  const GenerateJavadocForBoundInnerClassAccessor: (DocumentationGenerator, ClassInfo, MethodInfo, string) -> string
  const GenerateCodeDecoration: (DocumentationGenerator, string) -> seq<string>
}
