/** The fixed texts the storefront shows on price labels and on the
    preview's buy button. Both src/main.ts and src/components/ui/Card.ts
    write these same literals. */
module Labels {
  /** The label of a product without a price. */
  const Priceless := "Бесценно"
  /** What follows the number on a price label. */
  const Synapses := " синапсов"

  const InCartLabel := "Удалить из корзины"
  const AddLabel := "В корзину"
  const UnavailableLabel := "Недоступно"
}
