/** The fixed names the analyzer looks for (src/EntityLengths.Analyzer/Constants.cs). */
module Constants {
  const HasMaxLengthMethod: string := "HasMaxLength"
  const MaxLengthAttribute: string := "MaxLengthAttribute"
  const ColumnAttribute: string := "ColumnAttribute"
  const TypeName: string := "TypeName"
  const StringLengthAttribute: string := "StringLengthAttribute"
  const OnModelCreatingMethod: string := "OnModelCreating"
  const EfDbContextNamespace: string := "Microsoft.EntityFrameworkCore.DbContext"
  const Property: string := "Property"
}
